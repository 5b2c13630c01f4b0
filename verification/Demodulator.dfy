/** The streaming AM/FM demodulator of server/internal/app/dsp.go.  Floating point is modelled as
    reals, and the trigonometric functions are parameters with the laws the code relies on. */
module Signal {
  import opened GoMath

  datatype IQ = IQ(i: real, q: real)

  datatype Maths = Maths(cos: real -> real, sin: real -> real, atan2: (real, real) -> real, hypot: (real, real) -> real, pi: real)

  function Norm(a: IQ): real { a.i * a.i + a.q * a.q }

  ghost predicate MathsValid(m: Maths) {
    && m.pi > 0.0
    && (forall x: real :: Norm(IQ(m.cos(x), m.sin(x))) == 1.0)
    && (forall a: real, b: real :: m.hypot(a, b) >= 0.0 && m.hypot(a, b) * m.hypot(a, b) == Norm(IQ(a, b)))
    && Turned(m, 0.0) == IQ(1.0, 0.0)
    && (forall a: real, b: real :: AnglesAdd(m, a, b))
    && (forall r: real, a: real :: AngleOf(m, r, a))
    && (forall a: real :: CosinePositive(m, a))
  }

  lemma PositivePi(m: Maths)
    requires MathsValid(m)
    ensures m.pi > 0.0
  {
  }

  // The unit sample at an angle.
  function Turned(m: Maths, angle: real): IQ { IQ(m.cos(angle), m.sin(angle)) }

  // The two-argument arctangent gives back the angle of a point away from the origin.
  ghost predicate AngleOf(m: Maths, r: real, a: real) {
    r > 0.0 && -m.pi < a <= m.pi ==> m.atan2(Polar(m, r, a).q, Polar(m, r, a).i) == a
  }

  function Polar(m: Maths, r: real, a: real): IQ { IQ(r * m.cos(a), r * m.sin(a)) }

  // The right half plane.
  ghost predicate CosinePositive(m: Maths, a: real) { -m.pi < 2.0 * a < m.pi ==> m.cos(a) > 0.0 }

  // The addition theorems of cosine and sine.
  ghost predicate AnglesAdd(m: Maths, a: real, b: real) {
    Turned(m, a + b) == Mix(Turned(m, a), Turned(m, b))
  }

  function Plus(a: IQ, b: IQ): IQ { IQ(a.i + b.i, a.q + b.q) }

  function Over(a: IQ, n: nat): IQ
    requires n > 0
  {
    IQ(a.i / n as real, a.q / n as real)
  }

  // The complex product: mixing a sample with the oscillator, and advancing the oscillator by a step.
  function Mix(a: IQ, b: IQ): IQ { IQ(a.i * b.i - a.q * b.q, a.i * b.q + a.q * b.i) }

  lemma NormOfMix(a: IQ, b: IQ)
    ensures Norm(Mix(a, b)) == Norm(a) * Norm(b)
  {
    NormOfProduct(a.i, a.q, b.i, b.q);
  }

  lemma NormOfProduct(a: real, b: real, c: real, d: real)
    ensures (a * c - b * d) * (a * c - b * d) + (a * d + b * c) * (a * d + b * c) == (a * a + b * b) * (c * c + d * d)
  {
    var ac, bd, ad, bc := a * c, b * d, a * d, b * c;
    assert ac * bd == ad * bc by { Reorder(a, c, b, d); }
    assert ac * ac == (a * a) * (c * c) by { Reorder(a, c, a, c); }
    assert bd * bd == (b * b) * (d * d) by { Reorder(b, d, b, d); }
    assert ad * ad == (a * a) * (d * d) by { Reorder(a, d, a, d); }
    assert bc * bc == (b * b) * (c * c) by { Reorder(b, c, b, c); }
    SquareOfDifference(ac, bd);
    SquareOfSum(ad, bc);
    ProductOfSums(a * a, b * b, c * c, d * d);
  }

  lemma Reorder(a: real, b: real, c: real, d: real)
    ensures (a * b) * (c * d) == (a * c) * (b * d) == (a * d) * (c * b)
  {
  }

  lemma SquareOfDifference(x: real, y: real)
    ensures (x - y) * (x - y) == x * x - 2.0 * (x * y) + y * y
  {
  }

  lemma SquareOfSum(x: real, y: real)
    ensures (x + y) * (x + y) == x * x + 2.0 * (x * y) + y * y
  {
  }

  lemma ProductOfSums(a: real, b: real, c: real, d: real)
    ensures (a + b) * (c + d) == a * c + a * d + b * c + b * d
  {
  }

  lemma UnitRoot(h: real)
    requires h >= 0.0 && h * h == 1.0
    ensures h == 1.0
  {
    ProductOfSums(h, -1.0, h, 1.0);
    NoZeroDivisor(h - 1.0, h + 1.0);
  }

  lemma NoZeroDivisor(a: real, b: real)
    requires a * b == 0.0 && b != 0.0
    ensures a == 0.0
  {
  }

  function FloatPCM(value: real): (sample: int)
    ensures -32767 <= sample <= 32767
    ensures value >= 1.0 ==> sample == 32767
    ensures value <= -1.0 ==> sample == -32767
    ensures -1.0 <= value <= 1.0 ==> -0.5 <= sample as real - 32767.0 * value <= 0.5
  {
    var clamped := if value < -1.0 then -1.0 else if value > 1.0 then 1.0 else value;
    Round(clamped * 32767.0)
  }
}

/** The channel plan, one turn of the sample loop, and the unchunked definition of the audio. */
module Demodulation {
  import opened Signal

  datatype Mode = Auto | NFM | WFM | FM | AM | Unsupported
  datatype Format = Unsigned8 | Signed8

  datatype Plan = Plan(am: bool, d1: nat, d2: nat, channelRate: nat, outputRate: nat,
                       step: IQ, dcAlpha: real, emphasis: real, deviation: real)

  ghost predicate PlanValid(p: Plan) {
    p.d1 > 0 && p.d2 > 0 && p.deviation > 0.0 && Norm(p.step) == 1.0
  }

  const NARROWBAND_RATE: nat := 16000

  function Nominal(mode: Mode): nat { if mode == WFM || mode == FM then 48000 else NARROWBAND_RATE }

  // The angle by which the oscillator turns from one input sample to the next.
  function PhaseStep(m: Maths, rate: nat, offset: real): real
    requires rate > 0
  {
    -2.0 * m.pi * offset / rate as real
  }

  function PlanFor(m: Maths, rate: nat, offset: real, mode: Mode): (p: Plan)
    requires rate >= NARROWBAND_RATE && MathsValid(m)
    ensures PlanValid(p)
  {
    var wide := mode == WFM || mode == FM;
    var target := if wide then 240000 else if mode == AM then 64000 else 80000;
    var d1 := if rate / target < 1 then 1 else rate / target;
    var channelRate := rate / d1;
    var d2 := if channelRate / Nominal(mode) < 1 then 1 else channelRate / Nominal(mode);
    var outputRate := channelRate / d2;
    AtLeastOne(rate, d1, target);
    AtLeastOne(channelRate, d2, Nominal(mode));
    var phaseStep := PhaseStep(m, rate, offset);
    var tau := 1.0 / outputRate as real;
    Plan(mode == AM, d1, d2, channelRate, outputRate, IQ(m.cos(phaseStep), m.sin(phaseStep)),
         1.0 / (if channelRate as real * 0.25 < 1.0 then 1.0 else channelRate as real * 0.25),
         tau / (0.000075 + tau), if wide then 75000.0 else 5000.0)
  }

  lemma AtLeastOne(n: nat, d: nat, unit: nat)
    requires unit > 0 && n >= 1 && d == if n / unit < 1 then 1 else n / unit
    ensures n / d >= 1
    ensures n >= unit ==> unit <= n / d < 2 * unit
    ensures n < unit ==> n / d == n
  {
    if n >= unit {
      var k := n / unit;
      Euclid(n, unit);
      MulAtLeast(unit, k);
      DivBounds(n, k, unit);
    }
  }

  lemma Euclid(n: nat, unit: nat)
    requires 0 < unit <= n
    ensures n / unit >= 1 && unit * (n / unit) <= n < unit * (n / unit) + unit
  {
  }

  lemma MulAtLeast(a: nat, k: nat)
    requires k >= 1
    ensures a * k >= a
  {
  }

  lemma DivBounds(n: nat, k: nat, unit: nat)
    requires k > 0 && unit * k <= n < unit * k + unit * k
    ensures unit <= n / k < 2 * unit
  {
    var q := n / k;
    assert n == k * q + n % k;
    if q < unit { assert k * q + k <= k * unit by { MulMonotone(k, q + 1, unit); } }
    if q >= 2 * unit { assert k * q >= k * (2 * unit) by { MulMonotone(k, 2 * unit, q); } }
  }

  lemma MulMonotone(k: nat, a: nat, b: nat)
    requires a <= b
    ensures k * a <= k * b
  {
  }

  /** The output rate is within a factor of two above the nominal audio rate exactly when the input
      rate reaches the nominal rate; below it the input rate is passed through. */
  lemma OutputRate(m: Maths, rate: nat, offset: real, mode: Mode)
    requires rate >= NARROWBAND_RATE && MathsValid(m)
    ensures var out := PlanFor(m, rate, offset, mode).outputRate;
            var nominal := if mode == WFM || mode == FM then 48000 else 16000;
            && (nominal <= out < 2 * nominal <==> rate >= nominal)
            && (rate < nominal ==> out == rate)
  {
    var target := if mode == WFM || mode == FM then 240000 else if mode == AM then 64000 else 80000;
    var p := PlanFor(m, rate, offset, mode);
    AtLeastOne(rate, p.d1, target);
    AtLeastOne(p.channelRate, p.d2, Nominal(mode));
  }

  // ---- one turn of the loop ----

  datatype State = State(oscillator: IQ, previous: IQ, havePrevious: bool, dc: real, filtered: real,
                         iqSum: IQ, iqCount: nat, audioSum: real, audioCount: nat)

  const ZERO: IQ := IQ(0.0, 0.0)
  const START: State := State(IQ(1.0, 0.0), ZERO, false, 0.0, 0.0, ZERO, 0, 0.0, 0)

  // The turn from one channel sample to the next, times their power.
  function Beat(now: IQ, before: IQ): IQ {
    IQ(now.i * before.i + now.q * before.q, now.q * before.i - now.i * before.q)
  }

  // An angle between channel samples, as a share of the deviation.
  function Share(m: Maths, p: Plan, angle: real): real
    requires m.pi > 0.0 && p.deviation > 0.0
  {
    angle * p.channelRate as real / (2.0 * m.pi * p.deviation)
  }

  function Discriminated(m: Maths, p: Plan, now: IQ, before: IQ): real
    requires m.pi > 0.0 && p.deviation > 0.0
  {
    Share(m, p, m.atan2(Beat(now, before).q, Beat(now, before).i))
  }

  function Toward(from: real, to: real, alpha: real): real { from + (to - from) * alpha }

  datatype Emitted = Silent | Emitted(sample: int)

  // The part of the turn after an audio block may have filled up.
  function AudioTurn(p: Plan, s: State, value: real): (State, Emitted)
    requires PlanValid(p)
  {
    var sum, count := s.audioSum + value, s.audioCount + 1;
    if count < p.d2 then (s.(audioSum := sum, audioCount := count), Silent)
    else
      var mean := sum / count as real;
      var filtered := if p.am then s.filtered else Toward(s.filtered, mean, p.emphasis);
      (s.(filtered := filtered, audioSum := 0.0, audioCount := 0), Emitted(FloatPCM(if p.am then mean else filtered)))
  }

  // The part of the turn after an IQ block has filled up.
  function ChannelTurn(m: Maths, p: Plan, s: State, channel: IQ): (State, Emitted)
    requires m.pi > 0.0 && PlanValid(p)
  {
    var magnitude := m.hypot(channel.i, channel.q);
    var dc := if p.am then Toward(s.dc, magnitude, p.dcAlpha) else s.dc;
    var value := if p.am then magnitude - dc
                 else if s.havePrevious then Discriminated(m, p, channel, s.previous) else 0.0;
    AudioTurn(p, s.(dc := dc, previous := channel, havePrevious := true), value)
  }

  function Turn(m: Maths, p: Plan, s: State, sample: IQ): (State, Emitted)
    requires m.pi > 0.0 && PlanValid(p)
  {
    var sum, count := Plus(s.iqSum, Mix(sample, s.oscillator)), s.iqCount + 1;
    var s' := s.(oscillator := Mix(s.oscillator, p.step), iqSum := sum, iqCount := count);
    if count < p.d1 then (s', Silent)
    else ChannelTurn(m, p, s'.(iqSum := ZERO, iqCount := 0), Over(sum, count))
  }

  function Append(out: seq<int>, e: Emitted): seq<int> { if e.Silent? then out else out + [e.sample] }

  /** What a state makes of a run of samples. */
  function Run(m: Maths, p: Plan, s: State, samples: seq<IQ>): (State, seq<int>)
    requires m.pi > 0.0 && PlanValid(p)
  {
    if |samples| == 0 then (s, [])
    else
      var (before, out) := Run(m, p, s, samples[..|samples| - 1]);
      var (after, e) := Turn(m, p, before, samples[|samples| - 1]);
      (after, Append(out, e))
  }

  lemma RunOneMore(m: Maths, p: Plan, s: State, samples: seq<IQ>, x: IQ)
    requires m.pi > 0.0 && PlanValid(p)
    ensures var (before, out) := Run(m, p, s, samples);
            var (after, e) := Turn(m, p, before, x);
            Run(m, p, s, samples + [x]) == (after, Append(out, e))
  {
    assert (samples + [x])[..|samples|] == samples;
  }

  lemma RunNone(m: Maths, p: Plan, s: State)
    requires m.pi > 0.0 && PlanValid(p)
    ensures Run(m, p, s, []) == (s, [])
  {
  }

  /** Splitting the samples changes neither the audio nor the final state. */
  lemma {:induction false} RunSplit(m: Maths, p: Plan, s: State, a: seq<IQ>, b: seq<IQ>)
    requires m.pi > 0.0 && PlanValid(p)
    ensures var (middle, first) := Run(m, p, s, a);
            var (end, second) := Run(m, p, middle, b);
            Run(m, p, s, a + b) == (end, first + second)
  {
    hide Turn;
    if |b| == 0 {
      assert a + b == a;
      assert Run(m, p, s, a).1 + [] == Run(m, p, s, a).1;
    } else {
      var init, last := b[..|b| - 1], b[|b| - 1];
      RunSplit(m, p, s, a, init);
      assert a + b == (a + init) + [last];
      RunOneMore(m, p, s, a + init, last);
      var (middle, first) := Run(m, p, s, a);
      var (before, out) := Run(m, p, middle, init);
      AppendAssociates(first, out, Turn(m, p, before, last).1);
    }
  }

  lemma AppendAssociates(first: seq<int>, out: seq<int>, e: Emitted)
    ensures Append(first + out, e) == first + Append(out, e)
  {
    if e.Emitted? { assert first + out + [e.sample] == first + (out + [e.sample]); }
  }

  // ---- the oscillator ----

  /** In exact arithmetic the oscillator keeps norm 1, so renormalising it changes nothing. */
  lemma OscillatorStaysUnit(m: Maths, p: Plan, s: State, sample: IQ)
    requires MathsValid(m) && PlanValid(p) && Norm(s.oscillator) == 1.0
    ensures Norm(Turn(m, p, s, sample).0.oscillator) == 1.0
    ensures Norm(Mix(s.oscillator, p.step)) == 1.0
  {
    NormOfMix(s.oscillator, p.step);
  }

  lemma RenormalisingIsIdle(m: Maths, o: IQ)
    requires MathsValid(m) && Norm(o) == 1.0
    ensures m.hypot(o.i, o.q) == 1.0
  {
    UnitRoot(m.hypot(o.i, o.q));
  }

  // ---- the direct definition ----

  // An endless stream of samples; a recording is its first samples.
  type Stream = nat -> IQ

  // Continuous rotation: the step to the n-th power.
  function Rotation(p: Plan, n: nat): IQ { if n == 0 then IQ(1.0, 0.0) else Mix(Rotation(p, n - 1), p.step) }

  /** The rotation at sample n is back by the angle that a carrier at the offset has turned by then, n times
      2 pi offset / rate: the mixer shifts the spectrum by the offset at every sample, with no drift. */
  lemma {:induction false} RotationIsAngle(m: Maths, rate: nat, offset: real, mode: Mode, n: nat)
    requires rate >= NARROWBAND_RATE && MathsValid(m)
    ensures Rotation(PlanFor(m, rate, offset, mode), n) == Turned(m, -Multiple(n, 2.0 * m.pi * offset / rate as real))
  {
    PhaseBack(m, rate, offset, n);
    hide PhaseStep, MathsValid, PlanFor, Multiple, Turned, Rotation;
    StepIsTurned(m, rate, offset, mode);
    PowersOfStep(m, PlanFor(m, rate, offset, mode), PhaseStep(m, rate, offset), n);
  }

  lemma PhaseBack(m: Maths, rate: nat, offset: real, n: nat)
    requires rate > 0
    ensures Multiple(n, PhaseStep(m, rate, offset)) == -Multiple(n, 2.0 * m.pi * offset / rate as real)
  {
    var a := 2.0 * m.pi * offset;
    assert -2.0 * m.pi * offset == -a && (-a) / rate as real == -(a / rate as real);
  }

  lemma StepIsTurned(m: Maths, rate: nat, offset: real, mode: Mode)
    requires rate >= NARROWBAND_RATE && MathsValid(m)
    ensures PlanFor(m, rate, offset, mode).step == Turned(m, PhaseStep(m, rate, offset))
  {
    hide MathsValid, PlanValid, PhaseStep, Norm, Nominal;
  }

  lemma {:induction false} PowersOfStep(m: Maths, p: Plan, angle: real, n: nat)
    requires MathsValid(m) && p.step == Turned(m, angle)
    ensures Rotation(p, n) == Turned(m, Multiple(n, angle))
  {
    hide MathsValid, Mix, Multiple, Turned;
    OneMoreTime(n, angle);
    if n == 0 {
      AnglesLaws(m, 0.0, 0.0);
    } else {
      PowersOfStep(m, p, angle, n - 1);
      AnglesLaws(m, Multiple(n - 1, angle), angle);
    }
  }

  lemma AnglesLaws(m: Maths, a: real, b: real)
    requires MathsValid(m)
    ensures Turned(m, 0.0) == IQ(1.0, 0.0)
    ensures Turned(m, a + b) == Mix(Turned(m, a), Turned(m, b))
  {
    hide Norm, Mix, Turned;
    assert AnglesAdd(m, a, b);
  }

  function Multiple(n: nat, x: real): real { n as real * x }

  lemma OneMoreTime(n: nat, x: real)
    ensures Multiple(0, x) == 0.0
    ensures n > 0 ==> Multiple(n - 1, x) + x == Multiple(n, x)
  {
  }

  function MixedSum(p: Plan, x: Stream, from: nat, count: nat): IQ {
    if count == 0 then ZERO
    else Plus(MixedSum(p, x, from, count - 1), Mix(x(from + count - 1), Rotation(p, from + count - 1)))
  }

  // Channel sample k: the mean of the k-th block of d1 rotated samples.
  function Channel(p: Plan, x: Stream, k: nat): IQ
    requires PlanValid(p)
  {
    Over(MixedSum(p, x, k * p.d1, p.d1), p.d1)
  }

  function Magnitude(m: Maths, p: Plan, x: Stream, k: nat): real
    requires PlanValid(p)
  {
    m.hypot(Channel(p, x, k).i, Channel(p, x, k).q)
  }

  // The tracked carrier level after k channel samples.
  function Carrier(m: Maths, p: Plan, x: Stream, k: nat): real
    requires PlanValid(p)
  {
    if k == 0 then 0.0 else Toward(Carrier(m, p, x, k - 1), Magnitude(m, p, x, k - 1), p.dcAlpha)
  }

  function Value(m: Maths, p: Plan, x: Stream, k: nat): real
    requires m.pi > 0.0 && PlanValid(p)
  {
    if p.am then Magnitude(m, p, x, k) - Carrier(m, p, x, k + 1)
    else if k == 0 then 0.0
    else Discriminated(m, p, Channel(p, x, k), Channel(p, x, k - 1))
  }

  function ValueSum(m: Maths, p: Plan, x: Stream, from: nat, count: nat): real
    requires m.pi > 0.0 && PlanValid(p)
  {
    if count == 0 then 0.0 else ValueSum(m, p, x, from, count - 1) + Value(m, p, x, from + count - 1)
  }

  // The mean of the j-th block of d2 values.
  function Block(m: Maths, p: Plan, x: Stream, j: nat): real
    requires m.pi > 0.0 && PlanValid(p)
  {
    ValueSum(m, p, x, j * p.d2, p.d2) / p.d2 as real
  }

  // The de-emphasis filter after j blocks.
  function Emphasised(m: Maths, p: Plan, x: Stream, j: nat): real
    requires m.pi > 0.0 && PlanValid(p)
  {
    if j == 0 then 0.0 else Toward(Emphasised(m, p, x, j - 1), Block(m, p, x, j - 1), p.emphasis)
  }

  /** Audio sample j of the stream, with no state and no chunks. */
  function Sample(m: Maths, p: Plan, x: Stream, j: nat): int
    requires m.pi > 0.0 && PlanValid(p)
  {
    FloatPCM(if p.am then Block(m, p, x, j) else Emphasised(m, p, x, j + 1))
  }

  function Audio(m: Maths, p: Plan, x: Stream, count: nat): (r: seq<int>)
    requires m.pi > 0.0 && PlanValid(p)
    ensures |r| == count
  {
    seq(count, j requires 0 <= j < count => Sample(m, p, x, j))
  }

  lemma AudioOneMore(m: Maths, p: Plan, x: Stream, count: nat)
    requires m.pi > 0.0 && PlanValid(p)
    ensures Audio(m, p, x, count + 1) == Audio(m, p, x, count) + [Sample(m, p, x, count)]
  {
  }

  /** A place in the stream: j whole audio blocks, then t whole IQ blocks, then r samples. */
  datatype Place = Place(j: nat, t: nat, r: nat)

  function PlaceAfter(p: Plan, n: nat): (at: Place)
    requires PlanValid(p)
    ensures at.t < p.d2 && at.r < p.d1
    ensures n == (at.j * p.d2 + at.t) * p.d1 + at.r
  {
    if n == 0 then Place(0, 0, 0)
    else
      var at := PlaceAfter(p, n - 1);
      NextPlace(at.j, at.t, at.r, p.d1, p.d2);
      if at.r + 1 < p.d1 then at.(r := at.r + 1)
      else if at.t + 1 < p.d2 then Place(at.j, at.t + 1, 0)
      else Place(at.j + 1, 0, 0)
  }

  lemma NextPlace(j: nat, t: nat, r: nat, d1: nat, d2: nat)
    ensures (j * d2 + t + 1) * d1 == (j * d2 + t) * d1 + d1
    ensures (j + 1) * d2 == j * d2 + d2
  {
  }

  /** The loop's state after n samples, from the direct definition. */
  function StateAt(m: Maths, p: Plan, x: Stream, n: nat): State
    requires m.pi > 0.0 && PlanValid(p)
  {
    var at := PlaceAfter(p, n);
    var k := at.j * p.d2 + at.t;
    State(Rotation(p, n), if k == 0 then ZERO else Channel(p, x, k - 1), k > 0,
          if p.am then Carrier(m, p, x, k) else 0.0, if p.am then 0.0 else Emphasised(m, p, x, at.j),
          MixedSum(p, x, k * p.d1, at.r), at.r, ValueSum(m, p, x, at.j * p.d2, at.t), at.t)
  }

  // A filled audio block: the state and the sample are those of the direct definition.
  lemma AudioTurnDirect(m: Maths, p: Plan, x: Stream, s: State, j: nat, t: nat)
    requires m.pi > 0.0 && PlanValid(p) && t < p.d2
    requires s.audioCount == t && s.audioSum == ValueSum(m, p, x, j * p.d2, t)
    requires s.filtered == if p.am then 0.0 else Emphasised(m, p, x, j)
    ensures var (s', e) := AudioTurn(p, s, Value(m, p, x, j * p.d2 + t));
            if t + 1 < p.d2 then
              s' == s.(audioSum := ValueSum(m, p, x, j * p.d2, t + 1), audioCount := t + 1) && e == Silent
            else
              && s' == s.(audioSum := 0.0, audioCount := 0, filtered := if p.am then 0.0 else Emphasised(m, p, x, j + 1))
              && e == Emitted(Sample(m, p, x, j))
  {
    hide Value, FloatPCM, Toward;
    assert ValueSum(m, p, x, j * p.d2, t + 1) == ValueSum(m, p, x, j * p.d2, t) + Value(m, p, x, j * p.d2 + t);
  }

  // The step of the loop that only adds to the IQ block.
  lemma TurnInsideBlock(m: Maths, p: Plan, x: Stream, n: nat)
    requires m.pi > 0.0 && PlanValid(p) && PlaceAfter(p, n).r + 1 < p.d1
    ensures Turn(m, p, StateAt(m, p, x, n), x(n)) == (StateAt(m, p, x, n + 1), Silent)
    ensures PlaceAfter(p, n + 1).j == PlaceAfter(p, n).j
  {
    hide Mix, Over, Plus, Value, ValueSum, Emphasised, AudioTurn, ChannelTurn, Channel, Carrier;
    var at := PlaceAfter(p, n);
    var k := at.j * p.d2 + at.t;
    assert k * p.d1 + at.r == n;
    assert MixedSum(p, x, k * p.d1, at.r + 1) == Plus(MixedSum(p, x, k * p.d1, at.r), Mix(x(n), Rotation(p, n)));
  }

  // The step that fills IQ block k, up to the audio part of the turn.
  lemma TurnFillsBlock(m: Maths, p: Plan, x: Stream, n: nat, k: nat, s: State)
    requires m.pi > 0.0 && PlanValid(p) && s.iqCount + 1 == p.d1 && k * p.d1 + s.iqCount == n
    requires s.oscillator == Rotation(p, n) && s.iqSum == MixedSum(p, x, k * p.d1, s.iqCount)
    requires s.havePrevious == (k > 0) && (k > 0 ==> s.previous == Channel(p, x, k - 1))
    requires p.am ==> s.dc == Carrier(m, p, x, k)
    ensures Turn(m, p, s, x(n)) == AudioTurn(p, Between(m, p, x, n, k, s), Value(m, p, x, k))
  {
    hide Mix, Over, Plus, Value, AudioTurn, ChannelTurn, Carrier;
    assert Channel(p, x, k) == Over(Plus(s.iqSum, Mix(x(n), s.oscillator)), s.iqCount + 1);
    ChannelTurnDirect(m, p, x, n, s.(oscillator := Mix(s.oscillator, p.step), iqSum := ZERO, iqCount := 0), k);
  }

  // The state with IQ block k done, before its value is added to the audio block.
  function Between(m: Maths, p: Plan, x: Stream, n: nat, k: nat, s: State): State
    requires PlanValid(p)
  {
    s.(oscillator := Rotation(p, n + 1), iqSum := ZERO, iqCount := 0, previous := Channel(p, x, k), havePrevious := true,
       dc := if p.am then Carrier(m, p, x, k + 1) else s.dc)
  }

  /** One turn moves the direct state one sample on, and emits exactly the direct samples. */
  lemma TurnDirect(m: Maths, p: Plan, x: Stream, n: nat)
    requires m.pi > 0.0 && PlanValid(p)
    ensures var (s, e) := Turn(m, p, StateAt(m, p, x, n), x(n));
            var at, next := PlaceAfter(p, n), PlaceAfter(p, n + 1);
            && s == StateAt(m, p, x, n + 1)
            && (next.j == at.j ==> e == Silent)
            && (next.j != at.j ==> next.j == at.j + 1 && e == Emitted(Sample(m, p, x, at.j)))
  {
    hide Turn, Rotation, Value, ValueSum, MixedSum, Emphasised, Sample, AudioTurn, Channel, Carrier;
    var at := PlaceAfter(p, n);
    if at.r + 1 < p.d1 {
      TurnInsideBlock(m, p, x, n);
    } else {
      var k := at.j * p.d2 + at.t;
      NextPlace(at.j, at.t, at.r, p.d1, p.d2);
      var s := StateAt(m, p, x, n);
      TurnFillsBlock(m, p, x, n, k, s);
      AudioTurnDirect(m, p, x, Between(m, p, x, n, k, s), at.j, at.t);
      EmptySums(m, p, x, (k + 1) * p.d1, (at.j + 1) * p.d2);
    }
  }

  lemma EmptySums(m: Maths, p: Plan, x: Stream, a: nat, b: nat)
    requires m.pi > 0.0 && PlanValid(p)
    ensures MixedSum(p, x, a, 0) == ZERO && ValueSum(m, p, x, b, 0) == 0.0
  {
  }

  lemma ChannelTurnDirect(m: Maths, p: Plan, x: Stream, n: nat, s: State, k: nat)
    requires m.pi > 0.0 && PlanValid(p)
    requires s.havePrevious == (k > 0) && (k > 0 ==> s.previous == Channel(p, x, k - 1))
    requires p.am ==> s.dc == Carrier(m, p, x, k)
    ensures ChannelTurn(m, p, s, Channel(p, x, k))
         == AudioTurn(p, s.(dc := if p.am then Carrier(m, p, x, k + 1) else s.dc, previous := Channel(p, x, k), havePrevious := true),
                      Value(m, p, x, k))
  {
    hide AudioTurn, Channel, Discriminated, Toward;
  }

  /** Feeding a recording from the start gives exactly the direct audio and the direct state. */
  lemma {:induction false} RunIsDirect(m: Maths, p: Plan, x: Stream, samples: seq<IQ>)
    requires m.pi > 0.0 && PlanValid(p)
    requires forall k: nat | k < |samples| :: samples[k] == x(k)
    ensures Run(m, p, START, samples) == (StateAt(m, p, x, |samples|), Audio(m, p, x, PlaceAfter(p, |samples|).j))
  {
    if |samples| == 0 {
      EmptySums(m, p, x, 0, 0);
      assert StateAt(m, p, x, 0) == START;
    } else {
      hide Run, Turn, StateAt, Sample, PlaceAfter, Audio;
      var n := |samples| - 1;
      RunIsDirect(m, p, x, samples[..n]);
      TurnDirect(m, p, x, n);
      AudioOneMore(m, p, x, PlaceAfter(p, n).j);
      assert samples == samples[..n] + [samples[n]];
      RunOneMore(m, p, START, samples[..n], samples[n]);
    }
  }
}

/** The demodulator object, and what any way of cutting a recording into reads makes of it. */
module Streaming {
  import opened Bytes
  import opened Signal
  import opened Demodulation

  function Component(b: byte, format: Format): (r: real)
    ensures -1.0 <= r <= 1.0
    ensures format == Unsigned8 ==> 127.5 * r + 127.5 == b as real
    ensures format == Signed8 ==> 128.0 * r == b as real - if b >= 128 then 256.0 else 0.0
  {
    if format == Unsigned8 then (b as real - 127.5) / 127.5
    else (if b < 128 then b else b - 256) as real / 128.0
  }

  // The samples of one read: pairs of bytes, an odd last byte dropped.
  function Samples(data: seq<byte>, format: Format): (r: seq<IQ>)
    ensures |r| == |data| / 2
  {
    seq(|data| / 2, k requires 0 <= k < |data| / 2 =>
      assert 2 * k + 1 < |data|; IQ(Component(data[2 * k], format), Component(data[2 * k + 1], format)))
  }

  lemma SamplesSplit(a: seq<byte>, b: seq<byte>, format: Format)
    requires |a| % 2 == 0
    ensures Samples(a + b, format) == Samples(a, format) + Samples(b, format)
  {
    forall k | 0 <= k < |a + b| / 2 ensures Samples(a + b, format)[k] == (Samples(a, format) + Samples(b, format))[k] {
      if 2 * k >= |a| { assert (a + b)[2 * k] == b[2 * (k - |a| / 2)] && (a + b)[2 * k + 1] == b[2 * (k - |a| / 2) + 1]; }
    }
  }

  datatype Result = Audio(samples: seq<int>, rate: nat, droppedBytes: nat) | TooSmall | BadMode

  // Auto means narrowband FM.
  function Effective(mode: Mode): Mode { if mode == Auto then NFM else mode }

  datatype Channel = Channel(mode: Mode, rate: nat, offset: real, format: Format)

  // Samples waiting in the two accumulators.
  function Waiting(p: Plan, s: State): nat { s.audioCount * p.d1 + s.iqCount }

  /** A run over n samples with w already waiting emits (w + n) / (d1 * d2) samples and leaves the rest waiting. */
  lemma {:induction false} RunCounts(m: Maths, p: Plan, s: State, samples: seq<IQ>)
    requires m.pi > 0.0 && PlanValid(p) && s.iqCount < p.d1 && s.audioCount < p.d2
    ensures var (s', out) := Run(m, p, s, samples);
            && s'.iqCount < p.d1 && s'.audioCount < p.d2
            && Waiting(p, s) + |samples| == |out| * (p.d1 * p.d2) + Waiting(p, s')
  {
    hide Mix, Plus, Over, Discriminated, Toward, FloatPCM;
    if |samples| > 0 {
      RunCounts(m, p, s, samples[..|samples| - 1]);
      var (before, out) := Run(m, p, s, samples[..|samples| - 1]);
      BlockSizes(before.audioCount, |out|, p.d1, p.d2);
    }
  }

  lemma BlockSizes(t: nat, emitted: nat, d1: nat, d2: nat)
    ensures (t + 1) * d1 == t * d1 + d1
    ensures (emitted + 1) * (d1 * d2) == emitted * (d1 * d2) + d1 * d2
    ensures t + 1 == d2 ==> d1 * d2 == t * d1 + d1
  {
  }

  lemma WaitingBelowBlock(p: Plan, s: State)
    requires PlanValid(p) && s.iqCount < p.d1 && s.audioCount < p.d2
    ensures Waiting(p, s) < p.d1 * p.d2
  {
    BlockSizes(s.audioCount, 0, p.d1, p.d2);
    MulMonotone(p.d1, s.audioCount + 1, p.d2);
  }

  /** Audio samples out of n input samples: the quotient, with the remainder left waiting; so the
      capacity n / (d1 * d2) + 1 set aside beforehand always suffices. */
  lemma EmittedCount(m: Maths, p: Plan, s: State, samples: seq<IQ>)
    requires m.pi > 0.0 && PlanValid(p) && s.iqCount < p.d1 && s.audioCount < p.d2
    ensures p.d1 * p.d2 > 0
    ensures var (s', out) := Run(m, p, s, samples);
            && |out| == (Waiting(p, s) + |samples|) / (p.d1 * p.d2)
            && Waiting(p, s') == (Waiting(p, s) + |samples|) % (p.d1 * p.d2)
            && |out| <= |samples| / (p.d1 * p.d2) + 1
  {
    hide Run;
    RunCounts(m, p, s, samples);
    var (s', out) := Run(m, p, s, samples);
    WaitingBelowBlock(p, s);
    WaitingBelowBlock(p, s');
    Quotient(Waiting(p, s) + |samples|, p.d1 * p.d2, |out|, Waiting(p, s'));
    QuotientGap(|samples|, p.d1 * p.d2, Waiting(p, s));
  }

  lemma Quotient(n: nat, d: nat, q: nat, r: nat)
    requires n == q * d + r && r < d
    ensures n / d == q && n % d == r
  {
    var k := n / d;
    assert n == d * k + n % d;
    if k < q { MulMonotone(d, k + 1, q); }
    if k > q { MulMonotone(d, q + 1, k); }
  }

  lemma QuotientGap(n: nat, d: nat, w: nat)
    requires w < d
    ensures (w + n) / d <= n / d + 1
  {
    var q, k := n / d, (w + n) / d;
    assert n == d * q + n % d && w + n == d * k + (w + n) % d;
    BlockSizes(q, q, d, d);
    if k > q + 1 { MulMonotone(d, q + 2, k); }
  }

  lemma UnitStart()
    ensures Norm(IQ(1.0, 0.0)) == 1.0
  {
  }

  datatype Reading = Reading(state: State, audio: seq<int>, rate: nat)

  // What one accepted read makes of the state it starts from.
  function Read(m: Maths, c: Channel, start: State, data: seq<byte>): Reading
    requires MathsValid(m) && c.rate >= NARROWBAND_RATE
  {
    var p := PlanFor(m, c.rate, c.offset, c.mode);
    var (state, audio) := Run(m, p, start, Samples(data, c.format));
    Reading(state, audio, p.outputRate)
  }

  // Counters below the block sizes stay below them.
  predicate CountersFit(m: Maths, c: Channel, s: State)
    requires MathsValid(m) && c.rate >= NARROWBAND_RATE
  {
    var p := PlanFor(m, c.rate, c.offset, c.mode);
    s.iqCount < p.d1 && s.audioCount < p.d2
  }

  lemma CountersStayFit(m: Maths, c: Channel, s: State, data: seq<byte>)
    requires MathsValid(m) && c.rate >= NARROWBAND_RATE
    ensures CountersFit(m, c, START)
    ensures CountersFit(m, c, s) ==> CountersFit(m, c, Read(m, c, s, data).state)
  {
    var p := PlanFor(m, c.rate, c.offset, c.mode);
    hide Run, Samples, MathsValid;
    PositivePi(m);
    if CountersFit(m, c, s) { RunCounts(m, p, s, Samples(data, c.format)); }
  }

  // The body of the sample loop, on the local copies of the state; index is the byte position in the read.
  method OneSample(m: Maths, p: Plan, s: State, sample: IQ, index: nat) returns (s': State, e: Emitted)
    requires MathsValid(m) && PlanValid(p) && Norm(s.oscillator) == 1.0
    ensures (s', e) == Turn(m, p, s, sample)
    ensures Norm(s'.oscillator) == 1.0
  {
    hide Mix, Norm, Plus, Discriminated, Toward, FloatPCM, MathsValid;
    PositivePi(m);
    OscillatorStaysUnit(m, p, s, sample);
    var mixed := Mix(sample, s.oscillator);
    var oscillator := Mix(s.oscillator, p.step);
    if index % 8192 == 0 {
      var norm := m.hypot(oscillator.i, oscillator.q);
      RenormalisingIsIdle(m, oscillator);
      if norm > 0.0 { oscillator := IQ(oscillator.i / norm, oscillator.q / norm); }
    }
    s' := s.(oscillator := oscillator, iqSum := Plus(s.iqSum, mixed), iqCount := s.iqCount + 1);
    if s'.iqCount < p.d1 { return s', Silent; }
    var filteredIQ := Over(s'.iqSum, s'.iqCount);
    s' := s'.(iqSum := ZERO, iqCount := 0);
    var value := 0.0;
    if p.am {
      var magnitude := m.hypot(filteredIQ.i, filteredIQ.q);
      s' := s'.(dc := Toward(s'.dc, magnitude, p.dcAlpha));
      value := magnitude - s'.dc;
    } else if s'.havePrevious {
      value := Discriminated(m, p, filteredIQ, s'.previous);
    }
    s' := s'.(previous := filteredIQ, havePrevious := true,
              audioSum := s'.audioSum + value, audioCount := s'.audioCount + 1);
    if s'.audioCount < p.d2 { return s', Silent; }
    var audioSample := s'.audioSum / s'.audioCount as real;
    if !p.am {
      s' := s'.(filtered := Toward(s'.filtered, audioSample, p.emphasis));
      audioSample := s'.filtered;
    }
    e := Emitted(FloatPCM(audioSample));
    s' := s'.(audioSum := 0.0, audioCount := 0);
  }

  // The sample loop of one read.
  method RunSamples(m: Maths, p: Plan, start: State, data: seq<byte>, format: Format) returns (s: State, audio: seq<int>)
    requires MathsValid(m) && m.pi > 0.0 && PlanValid(p) && Norm(start.oscillator) == 1.0
    ensures (s, audio) == Run(m, p, start, Samples(data, format))
    ensures Norm(s.oscillator) == 1.0
  {
    hide MathsValid, Turn, Norm, Run, Component;
    s, audio := start, [];
    ghost var samples := Samples(data, format);
    RunNone(m, p, start);
    assert samples[..0] == [];
    var index := 0;
    while index + 1 < |data|
      invariant 0 <= index <= |data| && index % 2 == 0
      invariant Norm(s.oscillator) == 1.0
      invariant (s, audio) == Run(m, p, start, samples[..index / 2])
    {
      var sample := IQ(Component(data[index], format), Component(data[index + 1], format));
      assert samples[..index / 2 + 1] == samples[..index / 2] + [sample];
      RunOneMore(m, p, start, samples[..index / 2], sample);
      var emitted;
      s, emitted := OneSample(m, p, s, sample, index);
      audio := if emitted.Silent? then audio else audio + [emitted.sample];
      index := index + 2;
    }
    assert samples[..|data| / 2] == samples;
  }

  class StreamingDemodulator {
    var initialized: bool
    var channel: Channel
    var oscillator: IQ
    var previous: IQ
    var havePrevious: bool
    var dc: real
    var filtered: real
    var iqAccumulator: IQ
    var iqCount: nat
    var audioAccumulator: real
    var audioCount: nat

    function Current(): State
      reads this
    {
      State(oscillator, previous, havePrevious, dc, filtered, iqAccumulator, iqCount, audioAccumulator, audioCount)
    }

    ghost predicate Valid(m: Maths)
      reads this
    {
      MathsValid(m) && (initialized ==>
        channel.rate >= NARROWBAND_RATE && Norm(oscillator) == 1.0 && CountersFit(m, channel, Current()))
    }

    constructor ()
      ensures !initialized
    {
      initialized, channel := false, Channel(NFM, 0, 0.0, Unsigned8);
      oscillator, previous, havePrevious, dc, filtered := ZERO, ZERO, false, 0.0, 0.0;
      iqAccumulator, iqCount, audioAccumulator, audioCount := ZERO, 0, 0.0, 0;
    }

    // Where a read of this channel starts from: the kept state, or a fresh one after a change of channel.
    function StartFor(c: Channel): State
      reads this
    {
      if initialized && channel == c then Current() else START
    }

    method LoadState() returns (s: State)
      ensures s == Current()
    {
      s := State(oscillator, previous, havePrevious, dc, filtered, iqAccumulator, iqCount, audioAccumulator, audioCount);
    }

    method StoreState(s: State)
      modifies this
      ensures Current() == s && initialized == old(initialized) && channel == old(channel)
    {
      oscillator, previous, havePrevious, dc, filtered := s.oscillator, s.previous, s.havePrevious, s.dc, s.filtered;
      iqAccumulator, iqCount, audioAccumulator, audioCount := s.iqSum, s.iqCount, s.audioSum, s.audioCount;
    }

    /** One read.  Refused reads change nothing; an accepted one runs the loop over its samples from the
        kept state, or from the start when anything about the channel changed. */
    method Demodulate(m: Maths, data: seq<byte>, format: Format, inputRate: nat, offsetHz: real, mode: Mode) returns (r: Result)
      requires Valid(m)
      modifies this
      ensures Valid(m)
      ensures r.TooSmall? <==> inputRate < NARROWBAND_RATE || |data| < 4
      ensures r.BadMode? <==> !r.TooSmall? && mode == Unsupported
      ensures !r.Audio? ==> initialized == old(initialized) && channel == old(channel) && Current() == old(Current())
      ensures r.Audio? ==> initialized && channel == Channel(Effective(mode), inputRate, offsetHz, format)
      ensures r.Audio? ==> r.droppedBytes == |data| % 2
      ensures r.Audio? ==> var c := Channel(Effective(mode), inputRate, offsetHz, format);
                           Reading(Current(), r.samples, r.rate) == Read(m, c, old(StartFor(c)), data)
    {
      if inputRate < NARROWBAND_RATE || |data| < 4 { return TooSmall; }
      var effective := if mode == Auto then NFM else mode;
      if effective == Unsupported { return BadMode; }
      hide MathsValid, Run, Norm, PlanFor, Samples, CountersFit;
      var wanted := Channel(effective, inputRate, offsetHz, format);
      UnitStart();
      if !initialized || channel != wanted {
        initialized, channel := true, wanted;
        StoreState(START);
      }
      var p := PlanFor(m, inputRate, offsetHz, effective);
      var start := LoadState();
      assert start == old(StartFor(wanted));
      var s, audio := RunSamples(m, p, start, data, format);
      CountersStayFit(m, wanted, start, data);
      StoreState(s);
      r := Audio(audio, p.outputRate, |data| % 2);
    }
  }

  // ---- reads of any size ----

  // What a fresh demodulator hears of a sequence of reads: a read below four bytes is refused, and an
  // odd last byte of any other is dropped.
  function Heard(chunks: seq<seq<byte>>, format: Format): seq<IQ> {
    if |chunks| == 0 then []
    else
      var last := chunks[|chunks| - 1];
      Heard(chunks[..|chunks| - 1], format) + if |last| < 4 then [] else Samples(last, format)
  }

  lemma HeardOneMore(chunks: seq<seq<byte>>, k: nat, format: Format)
    requires k < |chunks|
    ensures Heard(chunks[..k + 1], format)
         == if |chunks[k]| < 4 then Heard(chunks[..k], format) else Heard(chunks[..k], format) + Samples(chunks[k], format)
  {
    hide Samples;
    assert chunks[..k + 1][..k] == chunks[..k];
  }

  function Concat(chunks: seq<seq<byte>>): seq<byte> {
    if |chunks| == 0 then [] else Concat(chunks[..|chunks| - 1]) + chunks[|chunks| - 1]
  }

  // Reads that cut the recording between samples.
  ghost predicate WholeSamples(chunks: seq<seq<byte>>) {
    forall k | 0 <= k < |chunks| :: |chunks[k]| % 2 == 0 && |chunks[k]| >= 4
  }

  /** Reads of whole samples are heard as the recording they cut, wherever they cut it. */
  lemma {:induction false} WholeIsHeard(chunks: seq<seq<byte>>, format: Format)
    requires WholeSamples(chunks)
    ensures Heard(chunks, format) == Samples(Concat(chunks), format) && |Concat(chunks)| % 2 == 0
  {
    hide Samples;
    if |chunks| == 0 {
      assert |Samples([], format)| == 0;
    } else {
      var init := chunks[..|chunks| - 1];
      WholeIsHeard(init, format);
      SamplesSplit(Concat(init), chunks[|chunks| - 1], format);
    }
  }

  /** Samples are lost exactly when some read is too short to be accepted or ends inside a sample. */
  lemma {:induction false} BytesHeard(chunks: seq<seq<byte>>, format: Format)
    ensures 2 * |Heard(chunks, format)| <= |Concat(chunks)|
    ensures 2 * |Heard(chunks, format)| == |Concat(chunks)|
       <==> forall k | 0 <= k < |chunks| :: |chunks[k]| == 0 || (|chunks[k]| >= 4 && |chunks[k]| % 2 == 0)
  {
    hide Samples;
    if |chunks| > 0 {
      var n := |chunks| - 1;
      BytesHeard(chunks[..n], format);
      assert forall k | 0 <= k < n :: chunks[k] == chunks[..n][k];
    }
  }

  // The recording as the beginning of a stream.
  function StreamOf(samples: seq<IQ>): Stream { (n: nat) => if n < |samples| then samples[n] else ZERO }

  /** Reading from a fresh demodulator in reads of any size: the audio, concatenated, is the direct
      definition's on the samples heard, and so is the state that is left once a read was accepted. */
  method DemodulateAll(m: Maths, chunks: seq<seq<byte>>, format: Format, inputRate: nat, offsetHz: real, mode: Mode)
    returns (audio: seq<int>, d: StreamingDemodulator)
    requires MathsValid(m)
    ensures fresh(d) && d.Valid(m)
    ensures d.initialized
       <==> inputRate >= NARROWBAND_RATE && mode != Unsupported && exists k | 0 <= k < |chunks| :: |chunks[k]| >= 4
    ensures !d.initialized ==> audio == []
    ensures d.initialized ==>
              var p := PlanFor(m, inputRate, offsetHz, Effective(mode));
              var samples := Heard(chunks, format);
              && audio == Demodulation.Audio(m, p, StreamOf(samples), PlaceAfter(p, |samples|).j)
              && d.Current() == StateAt(m, p, StreamOf(samples), |samples|)
  {
    hide MathsValid, PlanFor, StateAt, Run, Norm, Samples, CountersFit;
    PositivePi(m);
    d := new StreamingDemodulator();
    audio := [];
    ghost var usable := inputRate >= NARROWBAND_RATE && mode != Unsupported;
    ghost var c := Channel(Effective(mode), inputRate, offsetHz, format);
    if usable { RunNone(m, PlanFor(m, inputRate, offsetHz, Effective(mode)), START); }
    for k := 0 to |chunks|
      invariant d.Valid(m) && fresh(d)
      invariant d.initialized <==> usable && exists i | 0 <= i < k :: |chunks[i]| >= 4
      invariant d.initialized ==> d.channel == c
      invariant !d.initialized ==> audio == []
      invariant usable ==>
                  Run(m, PlanFor(m, inputRate, offsetHz, Effective(mode)), START, Heard(chunks[..k], format)) ==
                  (d.StartFor(c), audio)
    {
      HeardOneMore(chunks, k, format);
      if usable && |chunks[k]| >= 4 {
        RunSplit(m, PlanFor(m, inputRate, offsetHz, Effective(mode)), START, Heard(chunks[..k], format), Samples(chunks[k], format));
      }
      var r := d.Demodulate(m, chunks[k], format, inputRate, offsetHz, mode);
      if r.Audio? { audio := audio + r.samples; }
    }
    assert chunks[..|chunks|] == chunks;
    if d.initialized {
      ghost var samples := Heard(chunks, format);
      RunIsDirect(m, PlanFor(m, inputRate, offsetHz, Effective(mode)), StreamOf(samples), samples);
    }
  }
}
