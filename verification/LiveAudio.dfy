/** The live-audio stream: frames written by serveLiveAudio (server/internal/app/http.go), read by the
    incremental parser of pumpLiveAudio (server/web/app.js) and by Scripts/check_audio_capture.py. */
module LiveAudio {
  import opened Bytes

  // The channel identifier as its UTF-8 bytes; a Go int for the rate.
  datatype Frame = Frame(id: seq<byte>, rate: int, samples: seq<int16>)

  const MOST_SAMPLES := 10000000

  // ---- the server ----

  // Frames that do not fit the header's fields, or the readers' bound, are skipped.
  predicate Sendable(f: Frame) { |f.id| <= 65535 && |f.samples| <= MOST_SAMPLES }

  function Header(f: Frame): (r: seq<byte>)
    ensures |r| == 10
  {
    U16(|f.id|) + U32(f.rate) + U32(|f.samples|)
  }

  function Encode(f: Frame): (r: seq<byte>)
    ensures |r| == 10 + |f.id| + 2 * |f.samples|
  {
    Header(f) + f.id + EncodeSamples(f.samples)
  }

  function Sent(frames: seq<Frame>): seq<Frame> {
    if |frames| == 0 then []
    else Sent(frames[..|frames| - 1]) + (if Sendable(frames[|frames| - 1]) then [frames[|frames| - 1]] else [])
  }

  /** The frames whose identifier has at most 65535 bytes and which hold at most ten million samples: sent[k] is
      frame at[k], positions rise, and no such frame is left out. */
  ghost predicate Selects(frames: seq<Frame>, sent: seq<Frame>, at: seq<nat>) {
    && |at| == |sent| && (forall k | 0 <= k < |at| :: at[k] < |frames| && sent[k] == frames[at[k]])
    && (forall j, k | 0 <= j < k < |at| :: at[j] < at[k])
    && (forall i: nat | i < |frames| :: i in at <==> |frames[i].id| <= 65535 && |frames[i].samples| <= 10000000)
  }

  /** What is sent are those frames, each as often as it comes and in order. */
  lemma {:induction false} SentExactly(frames: seq<Frame>) returns (at: seq<nat>)
    ensures Selects(frames, Sent(frames), at)
  {
    at := [];
    if |frames| > 0 {
      var n := |frames| - 1;
      at := SentExactly(frames[..n]);
      if Sendable(frames[n]) { at := at + [n]; }
    }
  }

  /** So all frames are sent exactly when all are within the bounds. */
  lemma {:induction false} AllSentExactly(frames: seq<Frame>)
    ensures |Sent(frames)| <= |frames|
    ensures Sent(frames) == frames <==> forall f | f in frames :: |f.id| <= 65535 && |f.samples| <= 10000000
  {
    if |frames| > 0 {
      var init, last := frames[..|frames| - 1], frames[|frames| - 1];
      AllSentExactly(init);
      assert frames == init + [last];
      if Sent(frames) == frames { assert |Sent(frames)| == |init| + 1; }
    }
  }

  function EncodeAll(frames: seq<Frame>): seq<byte> {
    if |frames| == 0 then [] else Encode(frames[0]) + EncodeAll(frames[1..])
  }

  lemma {:induction false} EncodeAllAppend(frames: seq<Frame>, f: Frame)
    ensures EncodeAll(frames + [f]) == EncodeAll(frames) + Encode(f)
  {
    hide Encode;
    if |frames| == 0 {
      assert frames + [f] == [f] && [f][1..] == [];
    } else {
      assert (frames + [f])[0] == frames[0] && (frames + [f])[1..] == frames[1..] + [f];
      EncodeAllAppend(frames[1..], f);
    }
  }

  /** The bytes written for the frames received from the hub are those of the ones within the bounds, in order. */
  method Serve(frames: seq<Frame>) returns (written: seq<byte>)
    ensures exists sent, at :: Selects(frames, sent, at) && written == EncodeAll(sent)
    ensures (forall f | f in frames :: |f.id| <= 65535 && |f.samples| <= 10000000) ==> written == EncodeAll(frames)
    ensures written == EncodeAll(Sent(frames))
  {
    ghost var at := SentExactly(frames);
    AllSentExactly(frames);
    written := [];
    for k := 0 to |frames|
      invariant written == EncodeAll(Sent(frames[..k]))
    {
      assert frames[..k + 1][..k] == frames[..k];
      if !Sendable(frames[k]) {
        assert Sent(frames[..k + 1]) == Sent(frames[..k]);
        continue;
      }
      EncodeAllAppend(Sent(frames[..k]), frames[k]);
      var packet := U16(|frames[k].id|) + U32(frames[k].rate) + U32(|frames[k].samples|);
      packet := packet + frames[k].id;
      packet := packet + EncodeSamples(frames[k].samples);
      written := written + packet;
    }
    assert frames[..|frames|] == frames;
  }

  // ---- one frame at the front of a buffer ----

  function IdLength(b: seq<byte>): nat
    requires |b| >= 10
  {
    ReadU16(b, 0)
  }

  function Rate(b: seq<byte>): nat
    requires |b| >= 10
  {
    ReadU32(b, 2)
  }

  function Count(b: seq<byte>): nat
    requires |b| >= 10
  {
    ReadU32(b, 6)
  }

  function PacketLength(b: seq<byte>): (n: nat)
    requires |b| >= 10
    ensures n >= 10
  {
    10 + IdLength(b) + Count(b) * 2
  }

  function Samples(b: seq<byte>, at: nat, count: nat): (r: seq<int16>)
    requires at + 2 * count <= |b|
    ensures |r| == count
  {
    seq(count, i requires 0 <= i < count => SampleAt(b, at + 2 * i))
  }

  function FrameAt(b: seq<byte>): Frame
    requires |b| >= 10 && PacketLength(b) <= |b|
  {
    Frame(b[10..10 + IdLength(b)], Rate(b), Samples(b, 10 + IdLength(b), Count(b)))
  }

  // What arrives of a frame: its rate modulo 2^32.
  function Received(f: Frame): Frame { f.(rate := f.rate % TWO_TO_THE_32) }

  function ReceivedAll(frames: seq<Frame>): (r: seq<Frame>)
    ensures |r| == |frames|
  {
    seq(|frames|, i requires 0 <= i < |frames| => Received(frames[i]))
  }

  /** Nothing is lost exactly when every rate fits 32 bits. */
  lemma ReceivedExactly(frames: seq<Frame>)
    ensures ReceivedAll(frames) == frames <==> forall f | f in frames :: 0 <= f.rate < TWO_TO_THE_32
  {
    if forall f | f in frames :: 0 <= f.rate < TWO_TO_THE_32 {
      forall i | 0 <= i < |frames| ensures ReceivedAll(frames)[i] == frames[i] { assert frames[i] in frames; }
    }
    if ReceivedAll(frames) == frames {
      forall f | f in frames ensures 0 <= f.rate < TWO_TO_THE_32 {
        var i :| 0 <= i < |frames| && frames[i] == f;
        assert ReceivedAll(frames)[i] == Received(f);
      }
    }
  }

  // The header is read back from as little as the header itself.
  lemma HeaderRead(f: Frame, b: seq<byte>)
    requires Sendable(f) && |b| >= 10 && b[..10] == Header(f)
    ensures IdLength(b) == |f.id| && Count(b) == |f.samples| && Rate(b) == f.rate % TWO_TO_THE_32
    ensures PacketLength(b) == |Encode(f)|
  {
    hide U16, U32, ReadU16, ReadU32;
    var id, rate, count := U16(|f.id|), U32(f.rate), U32(|f.samples|);
    assert Header(f) == id + rate + count;
    assert b[0..2] == Header(f)[0..2] == id;
    assert b[2..6] == Header(f)[2..6] == rate;
    assert b[6..10] == Header(f)[6..10] == count;
    ReadsWithin(b, id, 0);
    ReadsWithin(b, rate, 2);
    ReadsWithin(b, count, 6);
    ReadsBackU16(|f.id|);
    ReadsBackU32(f.rate);
    ReadsBackU32(|f.samples|);
  }

  lemma SamplesRead(b: seq<byte>, at: nat, samples: seq<int16>)
    requires at + 2 * |samples| <= |b| && b[at..at + 2 * |samples|] == EncodeSamples(samples)
    ensures Samples(b, at, |samples|) == samples
  {
    forall i | 0 <= i < |samples| ensures SampleAt(b, at + 2 * i) == samples[i] {
      EncodedSampleAt(samples, i);
      assert b[at + 2 * i] == EncodeSamples(samples)[2 * i];
      assert b[at + 2 * i + 1] == EncodeSamples(samples)[2 * i + 1];
    }
  }

  lemma FrameReadBack(f: Frame, more: seq<byte>)
    requires Sendable(f)
    ensures var b := Encode(f) + more;
            PacketLength(b) == |Encode(f)| && Count(b) <= MOST_SAMPLES && FrameAt(b) == Received(f)
  {
    hide Header, EncodeSamples, ReadU16, ReadU32, Samples;
    var b := Encode(f) + more;
    assert b[..10] == Header(f);
    HeaderRead(f, b);
    var at := 10 + |f.id|;
    assert b[10..at] == f.id;
    assert b[at..at + 2 * |f.samples|] == EncodeSamples(f.samples);
    SamplesRead(b, at, f.samples);
  }

  // ---- the browser ----

  /** What the client makes of a buffer: the frames it plays, the bytes it keeps, and whether it gave up
      at a header that claims too many samples. */
  datatype Outcome = Outcome(frames: seq<Frame>, pending: seq<byte>, failed: bool)

  function Parse(b: seq<byte>): (o: Outcome)
    decreases |b|
  {
    if |b| < 10 then Outcome([], b, false)
    else if Count(b) > MOST_SAMPLES then Outcome([], b, true)
    else if |b| < PacketLength(b) then Outcome([], b, false)
    else
      var o := Parse(b[PacketLength(b)..]);
      Outcome([FrameAt(b)] + o.frames, o.pending, o.failed)
  }

  method Feed(pending: seq<byte>, value: seq<byte>) returns (frames: seq<Frame>, rest: seq<byte>, failed: bool)
    ensures Outcome(frames, rest, failed) == Parse(pending + value)
  {
    hide IdLength, Rate, Count;
    frames, rest, failed := [], pending + value, false;
    while |rest| >= 10
      invariant !failed
      invariant var o := Parse(rest); Outcome(frames + o.frames, o.pending, o.failed) == Parse(pending + value)
      decreases |rest|
    {
      var idLength, sampleRate, count := IdLength(rest), Rate(rest), Count(rest);
      var packetLength := 10 + idLength + count * 2;
      if count > MOST_SAMPLES { failed := true; assert frames + [] == frames; return; }
      if |rest| < packetLength { break; }
      var channelID := rest[10..10 + idLength];
      var pcm := ReadSamples(rest, 10 + idLength, count);
      assert FrameAt(rest) == Frame(channelID, sampleRate, pcm);
      assert forall more :: frames + ([FrameAt(rest)] + more) == (frames + [FrameAt(rest)]) + more;
      frames, rest := frames + [Frame(channelID, sampleRate, pcm)], rest[packetLength..];
    }
    assert frames + [] == frames;
  }

  method ReadSamples(b: seq<byte>, at: nat, count: nat) returns (pcm: seq<int16>)
    requires at + 2 * count <= |b|
    ensures pcm == Samples(b, at, count)
  {
    pcm := [];
    for index := 0 to count
      invariant |pcm| == index && forall i | 0 <= i < index :: pcm[i] == SampleAt(b, at + 2 * i)
    {
      pcm := pcm + [SampleAt(b, at + index * 2)];
    }
  }

  // A decision the parser has taken stands when more bytes arrive.
  lemma FrameStays(a: seq<byte>, b: seq<byte>)
    requires |a| >= 10
    ensures IdLength(a + b) == IdLength(a) && Rate(a + b) == Rate(a) && Count(a + b) == Count(a)
    ensures PacketLength(a) <= |a| ==> FrameAt(a + b) == FrameAt(a)
  {
    assert forall i | 0 <= i < |a| :: (a + b)[i] == a[i];
    if PacketLength(a) <= |a| {
      var at := 10 + IdLength(a);
      assert (a + b)[10..at] == a[10..at];
      forall i | 0 <= i < Count(a) ensures SampleAt(a + b, at + 2 * i) == SampleAt(a, at + 2 * i) {}
    }
  }

  /** Chunking: for any bytes, what is kept of a first part determines, with the second part, the rest of
      the outcome; and once the parser has failed, no more bytes change what it played. */
  lemma {:induction false} ParseInParts(a: seq<byte>, b: seq<byte>)
    ensures var first := Parse(a);
            if first.failed then Parse(a + b).failed && Parse(a + b).frames == first.frames
            else
              var second := Parse(first.pending + b);
              Parse(a + b) == Outcome(first.frames + second.frames, second.pending, second.failed)
    decreases |a|
  {
    hide IdLength, Rate, Count, FrameAt, PacketLength;
    if |a| < 10 {
      assert [] + Parse(a + b).frames == Parse(a + b).frames;
    } else {
      FrameStays(a, b);
      LengthStays(a, b);
      if Count(a) <= MOST_SAMPLES {
        var n := PacketLength(a);
        if |a| < n {
          assert [] + Parse(a + b).frames == Parse(a + b).frames;
        } else {
          assert (a + b)[n..] == a[n..] + b;
          ParseInParts(a[n..], b);
          var first, second := Parse(a[n..]), Parse(Parse(a[n..]).pending + b);
          assert [FrameAt(a)] + (first.frames + second.frames) == ([FrameAt(a)] + first.frames) + second.frames;
        }
      }
    }
  }

  lemma LengthStays(a: seq<byte>, b: seq<byte>)
    requires |a| >= 10
    ensures PacketLength(a + b) == PacketLength(a)
  {
    FrameStays(a, b);
  }

  function Joined(chunks: seq<seq<byte>>): seq<byte> {
    if |chunks| == 0 then [] else Joined(chunks[..|chunks| - 1]) + chunks[|chunks| - 1]
  }

  /** The reading loop: whatever the chunks, the frames played and the bytes kept are those of the bytes
      received so far, until a header is refused. */
  method Pump(chunks: seq<seq<byte>>) returns (played: seq<Frame>, pending: seq<byte>, failed: bool)
    ensures var o := Parse(Joined(chunks)); played == o.frames && failed == o.failed && (!failed ==> pending == o.pending)
  {
    hide Parse;
    played, pending, failed := [], [], false;
    EmptyParse();
    for k := 0 to |chunks|
      invariant !failed && Parse(Joined(chunks[..k])) == Outcome(played, pending, false)
    {
      assert chunks[..k + 1][..k] == chunks[..k];
      ParseInParts(Joined(chunks[..k]), chunks[k]);
      var frames, rest, refused := Feed(pending, chunks[k]);
      played, pending := played + frames, rest;
      if refused {
        failed := true;
        RefusalStands(chunks, k + 1);
        return;
      }
    }
    assert chunks[..|chunks|] == chunks;
  }

  lemma EmptyParse()
    ensures Parse([]) == Outcome([], [], false)
  {
  }

  lemma {:induction false} RefusalStands(chunks: seq<seq<byte>>, k: nat)
    requires k <= |chunks| && Parse(Joined(chunks[..k])).failed
    ensures Parse(Joined(chunks)).failed && Parse(Joined(chunks)).frames == Parse(Joined(chunks[..k])).frames
    decreases |chunks|
  {
    hide Parse;
    if k == |chunks| {
      assert chunks[..k] == chunks;
    } else {
      assert chunks[..|chunks| - 1][..k] == chunks[..k];
      RefusalStands(chunks[..|chunks| - 1], k);
      ParseInParts(Joined(chunks[..|chunks| - 1]), chunks[|chunks| - 1]);
    }
  }

  // ---- end to end ----

  // An incomplete frame yields nothing and is kept.
  lemma IncompleteKept(f: Frame, cut: seq<byte>)
    requires Sendable(f) && cut < Encode(f)
    ensures Parse(cut) == Outcome([], cut, false)
  {
    hide ReadU32, ReadU16, EncodeSamples;
    if |cut| >= 10 {
      assert cut[..10] == Encode(f)[..10] == Header(f);
      HeaderRead(f, cut);
    }
  }

  /** Of the frames the server sent, whole ones followed by a part of the next, the client plays the
      whole ones in order and keeps exactly the part. */
  lemma {:induction false} StreamReadBack(frames: seq<Frame>, cut: seq<byte>, next: Frame)
    requires (forall f | f in frames :: Sendable(f)) && Sendable(next) && cut < Encode(next)
    ensures Parse(EncodeAll(frames) + cut) == Outcome(ReceivedAll(frames), cut, false)
  {
    hide FrameAt, PacketLength, Count, Encode, Received;
    if |frames| == 0 {
      IncompleteKept(next, cut);
      assert EncodeAll(frames) + cut == cut;
    } else {
      var f := frames[0];
      var more := EncodeAll(frames[1..]) + cut;
      assert EncodeAll(frames) + cut == Encode(f) + more;
      FrameReadBack(f, more);
      assert (Encode(f) + more)[|Encode(f)|..] == more;
      StreamReadBack(frames[1..], cut, next);
      assert ReceivedAll(frames) == [Received(f)] + ReceivedAll(frames[1..]);
    }
  }

  /** How many frames are whole within the first n bytes of a stream. */
  function WholeFrames(frames: seq<Frame>, n: nat): (k: nat)
    ensures k <= |frames|
  {
    if |frames| == 0 || n < |Encode(frames[0])| then 0 else 1 + WholeFrames(frames[1..], n - |Encode(frames[0])|)
  }

  // The first n bytes are k whole frames and a part of the next.
  ghost predicate CutsAt(frames: seq<Frame>, n: nat, k: nat, cut: seq<byte>) {
    && n <= |EncodeAll(frames)| && k <= |frames| && EncodeAll(frames)[..n] == EncodeAll(frames[..k]) + cut
    && if k < |frames| then cut < Encode(frames[k]) else cut == []
  }

  lemma {:induction false} WholeFramesSplit(frames: seq<Frame>, n: nat)
    requires n <= |EncodeAll(frames)|
    ensures exists cut :: CutsAt(frames, n, WholeFrames(frames, n), cut)
  {
    hide Encode;
    if |frames| == 0 {
      assert WholeFrames(frames, n) == 0 && EncodeAll(frames)[..n] == [];
      assert CutsAt(frames, n, WholeFrames(frames, n), []);
    } else if n < |Encode(frames[0])| {
      assert WholeFrames(frames, n) == 0;
      assert EncodeAll(frames)[..n] == Encode(frames[0])[..n];
      assert CutsAt(frames, n, WholeFrames(frames, n), Encode(frames[0])[..n]);
    } else {
      var f, m := frames[0], n - |Encode(frames[0])|;
      WholeFramesSplit(frames[1..], m);
      var k := WholeFrames(frames[1..], m);
      var cut :| CutsAt(frames[1..], m, k, cut);
      CutLater(frames, n, k, cut);
      assert CutsAt(frames, n, WholeFrames(frames, n), cut);
    }
  }

  lemma CutLater(frames: seq<Frame>, n: nat, k: nat, cut: seq<byte>)
    requires |frames| > 0 && |Encode(frames[0])| <= n && CutsAt(frames[1..], n - |Encode(frames[0])|, k, cut)
    ensures CutsAt(frames, n, k + 1, cut)
  {
    hide Encode;
    assert frames[..k + 1][1..] == frames[1..][..k];
    assert EncodeAll(frames[..k + 1]) == Encode(frames[0]) + EncodeAll(frames[1..][..k]);
    assert EncodeAll(frames)[..n] == Encode(frames[0]) + EncodeAll(frames[1..])[..n - |Encode(frames[0])|];
  }

  /** After any number of the server's bytes, however they were chunked, the client has played exactly
      the frames that arrived whole and holds exactly the bytes after them. */
  lemma EndToEnd(frames: seq<Frame>, sent: seq<Frame>, at: seq<nat>, chunks: seq<seq<byte>>)
    requires Selects(frames, sent, at) && Joined(chunks) <= EncodeAll(sent)
    ensures var k := WholeFrames(sent, |Joined(chunks)|);
            && Parse(Joined(chunks)).frames == ReceivedAll(sent[..k]) && !Parse(Joined(chunks)).failed
            && Joined(chunks) == EncodeAll(sent[..k]) + Parse(Joined(chunks)).pending
  {
    SelectedAreSendable(frames, sent, at);
    hide Parse, Encode, EncodeAll, Sendable, Selects;
    var n := |Joined(chunks)|;
    WholeFramesSplit(sent, n);
    var k := WholeFrames(sent, n);
    assert EncodeAll(sent)[..n] == Joined(chunks);
    var cut :| CutsAt(sent, n, k, cut);
    if k < |sent| {
      StreamReadBack(sent[..k], cut, sent[k]);
    } else {
      EmptyIsSendable();
      StreamReadBack(sent[..k], cut, Frame([], 0, []));
    }
  }

  /** A whole transmission of frames within the bounds, with rates that fit 32 bits: every frame is played, in order
      and unchanged, and nothing is left over. */
  lemma AllArrive(frames: seq<Frame>, chunks: seq<seq<byte>>)
    requires Joined(chunks) == EncodeAll(frames)
    requires forall f | f in frames :: |f.id| <= 65535 && |f.samples| <= 10000000 && 0 <= f.rate < 0x1_0000_0000
    ensures Parse(Joined(chunks)) == Outcome(frames, [], false)
  {
    hide Parse, Encode, EncodeAll, Sendable;
    AllSentExactly(frames);
    SentSendable(frames);
    EmptyIsSendable();
    StreamReadBack(frames, [], Frame([], 0, []));
    assert EncodeAll(frames) + [] == EncodeAll(frames);
    ReceivedExactly(frames);
  }

  lemma SentSendable(frames: seq<Frame>)
    requires forall f | f in frames :: |f.id| <= 65535 && |f.samples| <= 10000000
    ensures forall f | f in frames :: Sendable(f)
  {
  }

  lemma SelectedAreSendable(frames: seq<Frame>, sent: seq<Frame>, at: seq<nat>)
    requires Selects(frames, sent, at)
    ensures forall f | f in sent :: Sendable(f)
  {
    forall f | f in sent ensures Sendable(f) {
      var k :| 0 <= k < |sent| && sent[k] == f;
      assert at[k] in at;
    }
  }

  lemma EmptyIsSendable()
    ensures Sendable(Frame([], 0, [])) && [] < Encode(Frame([], 0, []))
  {
  }

  // ---- the capture checker ----

  /** The frames the checker reads and the bytes it reports as trailing: it has no bound on the number of
      samples, and stops at a rate of zero. */
  function Check(b: seq<byte>): (o: Outcome)
    ensures !o.failed
    decreases |b|
  {
    if |b| < 10 || |b| < PacketLength(b) || Rate(b) == 0 then Outcome([], b, false)
    else
      var o := Check(b[PacketLength(b)..]);
      Outcome([FrameAt(b)] + o.frames, o.pending, false)
  }

  function UpToZeroRate(frames: seq<Frame>): seq<Frame> {
    if |frames| == 0 || frames[0].rate == 0 then [] else [frames[0]] + UpToZeroRate(frames[1..])
  }

  lemma {:induction false} UpToZeroRateIsAll(frames: seq<Frame>)
    ensures UpToZeroRate(frames) <= frames
    ensures UpToZeroRate(frames) == frames <==> forall f | f in frames :: f.rate != 0
  {
    if |frames| > 0 && frames[0].rate != 0 {
      UpToZeroRateIsAll(frames[1..]);
      assert frames == [frames[0]] + frames[1..];
    }
  }

  /** On any bytes, the checker reads the client's frames up to the first of rate zero; where the client
      does not give up and no rate is zero, that is all of them, with the same trailing bytes. */
  lemma {:induction false} CheckerAgrees(b: seq<byte>)
    ensures var js, py := Parse(b), Check(b);
            && UpToZeroRate(js.frames) <= py.frames
            && (!js.failed ==> py.frames == UpToZeroRate(js.frames))
            && (!js.failed && (forall f | f in js.frames :: f.rate != 0) ==> py == js)
    decreases |b|
  {
    hide IdLength, Rate, Count, PacketLength, FrameAt;
    if |b| >= 10 && Count(b) <= MOST_SAMPLES && PacketLength(b) <= |b| {
      FrameRate(b);
      var rest := b[PacketLength(b)..];
      CheckerAgrees(rest);
      assert Parse(b).frames[1..] == Parse(rest).frames;
      assert forall f | f in Parse(rest).frames :: f in Parse(b).frames;
    }
  }

  lemma FrameRate(b: seq<byte>)
    requires |b| >= 10 && PacketLength(b) <= |b|
    ensures FrameAt(b).rate == Rate(b)
  {
  }

  /** Both readers end with the same frames and the same trailing bytes exactly when none has rate zero. */
  lemma ReadersAgreeExactly(b: seq<byte>)
    requires !Parse(b).failed
    ensures Check(b) == Parse(b) <==> forall f | f in Parse(b).frames :: f.rate != 0
  {
    hide Parse, Check;
    CheckerAgrees(b);
    UpToZeroRateIsAll(Parse(b).frames);
  }

  function TotalSamples(frames: seq<Frame>): nat {
    if |frames| == 0 then 0 else TotalSamples(frames[..|frames| - 1]) + |frames[|frames| - 1].samples|
  }

  function Rates(frames: seq<Frame>): set<int> { set f | f in frames :: f.rate }

  function Channels(frames: seq<Frame>): set<seq<byte>> { set f | f in frames :: f.id }

  lemma TalliesAppend(frames: seq<Frame>, f: Frame)
    ensures TotalSamples(frames + [f]) == TotalSamples(frames) + |f.samples|
    ensures Rates(frames + [f]) == Rates(frames) + {f.rate} && Channels(frames + [f]) == Channels(frames) + {f.id}
  {
    assert (frames + [f])[..|frames|] == frames;
    RatesAppend(frames, f);
    ChannelsAppend(frames, f);
  }

  lemma RatesAppend(frames: seq<Frame>, f: Frame)
    ensures Rates(frames + [f]) == Rates(frames) + {f.rate}
  {
  }

  lemma ChannelsAppend(frames: seq<Frame>, f: Frame)
    ensures Channels(frames + [f]) == Channels(frames) + {f.id}
  {
  }

  lemma CheckStep(data: seq<byte>, position: nat)
    requires position <= |data|
    ensures var rest := data[position..];
            if |rest| < 10 || |rest| < PacketLength(rest) || Rate(rest) == 0 then Check(rest) == Outcome([], rest, false)
            else
              var o := Check(data[position + PacketLength(rest)..]);
              Check(rest) == Outcome([FrameAt(rest)] + o.frames, o.pending, false)
  {
    hide IdLength, Rate, Count, PacketLength, FrameAt;
    var rest := data[position..];
    if |rest| >= 10 && PacketLength(rest) <= |rest| {
      assert data[position + PacketLength(rest)..] == rest[PacketLength(rest)..];
    }
  }

  /** The checker's loop: the frames, samples, rates and channels it counts and the bytes it leaves. */
  method CheckCapture(data: seq<byte>) returns (frames: nat, samples: nat, rates: set<int>, channels: set<seq<byte>>, trailing: nat)
    ensures var o := Check(data);
            && frames == |o.frames| && samples == TotalSamples(o.frames) && trailing == |o.pending|
            && rates == Rates(o.frames) && channels == Channels(o.frames)
  {
    hide Check, Rates, Channels, TotalSamples, Rate, Count, IdLength, Samples;
    var position := 0;
    ghost var seen: seq<Frame> := [];
    ghost var whole := Check(data);
    frames, samples, rates, channels := 0, 0, {}, {};
    NothingTallied();
    assert data[0..] == data;
    while position + 10 <= |data|
      invariant position <= |data|
      invariant whole.frames == seen + Check(data[position..]).frames && whole.pending == Check(data[position..]).pending
      invariant frames == |seen| && samples == TotalSamples(seen) && rates == Rates(seen) && channels == Channels(seen)
      decreases |data| - position
    {
      ghost var rest := data[position..];
      CheckStep(data, position);
      var length, rate, count := IdLength(data[position..]), Rate(data[position..]), Count(data[position..]);
      var end := position + 10 + length + count * 2;
      if end > |data| || rate == 0 { break; }
      TalliesAppend(seen, FrameAt(rest));
      assert rest[10..10 + length] == data[position + 10..position + 10 + length];
      assert seen + ([FrameAt(rest)] + Check(data[end..]).frames) == (seen + [FrameAt(rest)]) + Check(data[end..]).frames;
      seen := seen + [FrameAt(rest)];
      channels := channels + {data[position + 10..position + 10 + length]};
      rates := rates + {rate};
      frames, samples, position := frames + 1, samples + count, end;
    }
    CheckStep(data, position);
    assert seen + [] == seen;
    trailing := |data| - position;
  }

  lemma NothingTallied()
    ensures TotalSamples([]) == 0 && Rates([]) == {} && Channels([]) == {}
  {
  }
}
