/** The filters of the demodulator in server/internal/app/dsp.go: how the rates are divided, and how the audio of a steady
    signal settles. */
module Filters {
  import opened GoMath
  import opened Signal
  import opened Demodulation
  import Carrier
  import Streaming

  // ---- the plan in numbers ----

  // d is how often the unit goes into n, and at least one; q is the quotient of n by d.
  predicate Divided(n: nat, d: nat, unit: nat, q: nat) {
    && d >= 1 && (d == 1 || d * unit <= n) && n < (d + 1) * unit
    && q * d <= n < (q + 1) * d
  }

  /** The rates of a channel: 240 kHz for wide FM, 64 kHz for AM and 80 kHz for the others, then 48 kHz or 16 kHz
      of audio. */
  predicate RatesLaw(rate: nat, mode: Mode, p: Plan) {
    var wide := mode in {WFM, FM};
    && Divided(rate, p.d1, if wide then 240000 else if mode == AM then 64000 else 80000, p.channelRate)
    && Divided(p.channelRate, p.d2, if wide then 48000 else 16000, p.outputRate)
  }

  /** Its constants: a deviation of 75 kHz or 5 kHz, 75 microseconds of de-emphasis, and a carrier level that follows in
      a quarter of a second. */
  predicate ConstantsLaw(mode: Mode, p: Plan) {
    && (p.am <==> mode == AM) && p.deviation == (if mode in {WFM, FM} then 75000.0 else 5000.0)
    && p.dcAlpha * p.channelRate as real == 4.0 && 0.0 < p.dcAlpha < 1.0
    && p.emphasis * (1.0 + 0.000075 * p.outputRate as real) == 1.0 && 0.0 < p.emphasis < 1.0
  }

  lemma DividedBy(n: nat, d: nat, unit: nat)
    requires unit > 0 && n >= 1 && d == if n / unit < 1 then 1 else n / unit
    ensures Divided(n, d, unit, n / d)
  {
    if n >= unit { Euclid(n, unit); }
    Quotient(n, d);
  }

  lemma Quotient(n: nat, d: nat)
    requires d > 0
    ensures n / d * d <= n < (n / d + 1) * d
  {
  }

  lemma ChannelIsFast(rate: nat, d: nat, unit: nat)
    requires unit >= 16000 && rate >= 16000 && d == if rate / unit < 1 then 1 else rate / unit
    ensures rate / d >= 16000
  {
    AtLeastOne(rate, d, unit);
  }

  lemma DeEmphasis(rate: real)
    requires rate > 0.0
    ensures (1.0 / rate) / (0.000075 + 1.0 / rate) * (1.0 + 0.000075 * rate) == 1.0
  {
    var tau := 1.0 / rate;
    var e := tau / (0.000075 + tau);
    assert tau * rate == 1.0;
    assert e * (0.000075 + tau) == tau;
    assert e * (1.0 + 0.000075 * rate) == (e * (0.000075 + tau)) * rate by { Spread(e, tau, rate); }
  }

  lemma Spread(e: real, tau: real, rate: real)
    requires tau * rate == 1.0
    ensures (e * (0.000075 + tau)) * rate == e * (1.0 + 0.000075 * rate)
  {
    assert (0.000075 + tau) * rate == 0.000075 * rate + 1.0;
    assert (e * (0.000075 + tau)) * rate == e * ((0.000075 + tau) * rate);
  }

  // The fields of a plan as they are computed.
  predicate Fields(rate: nat, mode: Mode, p: Plan) {
    var wide := mode == WFM || mode == FM;
    && (p.am <==> mode == AM) && p.deviation == (if wide then 75000.0 else 5000.0)
    && p.d1 == UnitsIn(rate, if wide then 240000 else if mode == AM then 64000 else 80000)
    && p.d2 == UnitsIn(p.channelRate, if wide then 48000 else 16000)
    && p.d1 > 0 && p.d2 > 0 && p.channelRate == rate / p.d1 && p.outputRate == p.channelRate / p.d2 && p.outputRate > 0
    && p.dcAlpha == 1.0 / (if p.channelRate as real * 0.25 < 1.0 then 1.0 else p.channelRate as real * 0.25)
    && p.emphasis == (1.0 / p.outputRate as real) / (0.000075 + 1.0 / p.outputRate as real)
  }

  lemma PlanFields(m: Maths, rate: nat, offset: real, mode: Mode)
    requires rate >= NARROWBAND_RATE && MathsValid(m)
    ensures Fields(rate, mode, PlanFor(m, rate, offset, mode))
  {
    hide MathsValid, PhaseStep, Norm;
    var p := PlanFor(m, rate, offset, mode);
    AtLeastOne(rate, p.d1, if mode == WFM || mode == FM then 240000 else if mode == AM then 64000 else 80000);
    AtLeastOne(p.channelRate, p.d2, Nominal(mode));
  }

  function UnitsIn(n: nat, unit: nat): nat
    requires unit > 0
  {
    if n / unit < 1 then 1 else n / unit
  }

  lemma LevelShare(rate: real)
    requires rate >= 4.0
    ensures 1.0 / (if rate * 0.25 < 1.0 then 1.0 else rate * 0.25) * rate == 4.0
  {
    var k := rate * 0.25;
    assert 1.0 / k * k == 1.0;
  }

  lemma RatesObey(rate: nat, mode: Mode, p: Plan)
    requires rate >= 16000 && Fields(rate, mode, p)
    ensures RatesLaw(rate, mode, p) && p.channelRate >= 16000
  {
    hide Divided;
    var unit := if mode == WFM || mode == FM then 240000 else if mode == AM then 64000 else 80000;
    DividedBy(rate, p.d1, unit);
    ChannelIsFast(rate, p.d1, unit);
    DividedBy(p.channelRate, p.d2, if mode == WFM || mode == FM then 48000 else 16000);
  }

  lemma ConstantsObey(rate: nat, mode: Mode, p: Plan)
    requires Fields(rate, mode, p) && p.channelRate >= 16000
    ensures ConstantsLaw(mode, p)
  {
    hide UnitsIn;
    DeEmphasis(p.outputRate as real);
    LevelShare(p.channelRate as real);
    ShareBounds(p.emphasis, 1.0 + 0.000075 * p.outputRate as real, 1.0);
    ShareBounds(p.dcAlpha, p.channelRate as real, 4.0);
  }

  lemma PlanObeys(m: Maths, rate: nat, offset: real, mode: Mode)
    requires rate >= NARROWBAND_RATE && MathsValid(m)
    ensures RatesLaw(rate, mode, PlanFor(m, rate, offset, mode)) && ConstantsLaw(mode, PlanFor(m, rate, offset, mode))
  {
    hide MathsValid, PlanFor, Fields, RatesLaw, ConstantsLaw;
    PlanFields(m, rate, offset, mode);
    RatesObey(rate, mode, PlanFor(m, rate, offset, mode));
    ConstantsObey(rate, mode, PlanFor(m, rate, offset, mode));
  }

  lemma ShareBounds(e: real, n: real, k: real)
    requires e * n == k && 0.0 < k < n
    ensures 0.0 < e < 1.0
  {
    if e <= 0.0 { NotPositive(e, n); }
    if e >= 1.0 { NotPositive(1.0 - e, n); }
  }

  lemma NotPositive(a: real, n: real)
    requires a <= 0.0 && n > 0.0
    ensures a * n <= 0.0
  {
  }

  // ---- powers ----

  function Times(a: real, b: real): real { a * b }

  function Power(a: real, n: nat): real { if n == 0 then 1.0 else Times(a, Power(a, n - 1)) }

  lemma {:induction false} PowerShrinks(a: real, n: nat, k: nat)
    requires 0.0 <= a <= 1.0 && k <= n
    ensures 0.0 <= Power(a, n) <= Power(a, k) <= 1.0
  {
    if n > 0 {
      PowerShrinks(a, n - 1, if k < n then k else k - 1);
      Shrinks(a, Power(a, n - 1));
      if k == n { PowerShrinks(a, n - 1, 0); }
    }
  }

  lemma Shrinks(a: real, b: real)
    requires 0.0 <= a <= 1.0 && b >= 0.0
    ensures 0.0 <= Times(a, b) <= b
  {
    Carrier.NotNegative(a, b);
    Carrier.NotNegative(1.0 - a, b);
    assert (1.0 - a) * b == b - a * b;
  }

  // ---- a filter ----

  lemma Remainder(gap: real, alpha: real)
    ensures Times(1.0 - alpha, gap) == gap - Times(gap, alpha)
  {
  }

  lemma TowardIs(from: real, to: real, alpha: real)
    ensures Toward(from, to, alpha) == from + Times(to - from, alpha)
  {
  }

  /** One turn of a first-order filter leaves 1 - alpha of the gap to its input. */
  lemma GapCloses(from: real, to: real, alpha: real)
    ensures to - Toward(from, to, alpha) == Times(1.0 - alpha, to - from)
  {
    hide Times, Toward;
    TowardIs(from, to, alpha);
    Remainder(to - from, alpha);
  }

  // ---- FM ----

  // From the second channel sample on, the discriminator says v.
  ghost predicate Steady(m: Maths, p: Plan, x: Stream, v: real)
    requires m.pi > 0.0 && PlanValid(p)
  {
    forall k: nat | k >= 1 :: Value(m, p, x, k) == v
  }

  lemma {:induction false} SteadySum(m: Maths, p: Plan, x: Stream, v: real, from: nat, count: nat)
    requires m.pi > 0.0 && PlanValid(p) && Steady(m, p, x, v) && from >= 1
    ensures ValueSum(m, p, x, from, count) == Times(count as real, v)
  {
    hide Value, PlanValid;
    if count > 0 {
      SteadySum(m, p, x, v, from, count - 1);
      OneMore(count - 1, v);
    }
  }

  lemma {:induction false} FirstSum(m: Maths, p: Plan, x: Stream, v: real, count: nat)
    requires m.pi > 0.0 && PlanValid(p) && !p.am && Steady(m, p, x, v) && count >= 1
    ensures ValueSum(m, p, x, 0, count) == Times((count - 1) as real, v)
  {
    hide PlanValid, Discriminated;
    if count > 1 {
      FirstSum(m, p, x, v, count - 1);
      OneMore(count - 2, v);
    } else {
      assert ValueSum(m, p, x, 0, 0) == 0.0;
    }
  }

  lemma OneMore(n: nat, v: real)
    ensures Times(n as real, v) + v == Times((n + 1) as real, v)
  {
  }

  lemma Mean(n: nat, v: real)
    requires n > 0
    ensures Times(n as real, v) / n as real == v
  {
  }

  lemma SteadyBlock(m: Maths, p: Plan, x: Stream, v: real, j: nat)
    requires m.pi > 0.0 && PlanValid(p) && Steady(m, p, x, v) && j >= 1
    ensures Block(m, p, x, j) == v
  {
    hide Steady, ValueSum, Times;
    assert j * p.d2 >= 1;
    SteadySum(m, p, x, v, j * p.d2, p.d2);
    Mean(p.d2, v);
  }

  // What is missing from the first block.
  function Missing(d: nat): real
    requires d > 0
  {
    1.0 / d as real
  }

  lemma FirstBlock(m: Maths, p: Plan, x: Stream, v: real)
    requires m.pi > 0.0 && PlanValid(p) && !p.am && Steady(m, p, x, v)
    ensures v - Block(m, p, x, 0) == Times(Missing(p.d2), v)
  {
    hide Steady, ValueSum;
    FirstSum(m, p, x, v, p.d2);
    LessOne(p.d2, v);
  }

  lemma LessOne(d: nat, v: real)
    requires d > 0
    ensures v - Times((d - 1) as real, v) / d as real == Times(1.0 / d as real, v)
  {
    var q := 1.0 / d as real;
    assert q * d as real == 1.0;
    assert Times((d - 1) as real, v) == d as real * v - v;
    assert (d as real * v - v) / d as real == (d as real * v) / d as real - v / d as real;
    assert v / d as real == q * v;
  }

  // The share of v that is still missing after the first audio sample.
  function Left(p: Plan): real
    requires p.d2 > 0
  {
    1.0 - p.emphasis + Times(p.emphasis, Missing(p.d2))
  }

  lemma LeftIsShare(p: Plan)
    requires p.d2 > 0 && 0.0 < p.emphasis < 1.0
    ensures 0.0 <= Left(p) <= 1.0
  {
    var q := Missing(p.d2);
    assert q * p.d2 as real == 1.0;
    assert 0.0 <= q <= 1.0 by { ShareOfOne(p.d2); }
    Shrinks(p.emphasis, q);
    Shrinks(q, p.emphasis);
    assert Times(p.emphasis, q) == Times(q, p.emphasis);
  }

  lemma ShareOfOne(d: nat)
    requires d > 0
    ensures 0.0 <= 1.0 / d as real <= 1.0
  {
  }

  /** The de-emphasised audio of a steady signal approaches it geometrically: of the gap the first sample leaves, each
      further one leaves 1 - e. */
  lemma {:induction false} Settles(m: Maths, p: Plan, x: Stream, v: real, j: nat)
    requires m.pi > 0.0 && PlanValid(p) && !p.am && Steady(m, p, x, v)
    ensures v - Emphasised(m, p, x, j + 1) == Times(Times(Left(p), Power(1.0 - p.emphasis, j)), v)
  {
    hide Steady, Block, Times, Missing, Toward;
    var e := p.emphasis;
    if j == 0 {
      FirstBlock(m, p, x, v);
      assert Emphasised(m, p, x, 0) == 0.0;
      var b := Block(m, p, x, 0);
      assert Emphasised(m, p, x, 1) == Toward(0.0, b, e);
      FirstGap(b, v, e, Missing(p.d2));
      TimesOne(Left(p));
    } else {
      Settles(m, p, x, v, j - 1);
      SteadyBlock(m, p, x, v, j);
      GapCloses(Emphasised(m, p, x, j), v, e);
      Regroup(1.0 - e, Left(p), Power(1.0 - e, j - 1), v);
    }
  }

  lemma FirstGap(b: real, v: real, e: real, missing: real)
    requires v - b == Times(missing, v)
    ensures v - Toward(0.0, b, e) == Times(1.0 - e + Times(e, missing), v)
  {
    assert b * e == v * e - (missing * v) * e;
    assert (missing * v) * e == (e * missing) * v;
  }

  lemma TimesOne(a: real)
    ensures Times(a, 1.0) == a
  {
  }

  lemma Regroup(a: real, b: real, c: real, v: real)
    ensures Times(a, Times(Times(b, c), v)) == Times(Times(b, Times(a, c)), v)
  {
    assert a * ((b * c) * v) == (a * (b * c)) * v;
    assert a * (b * c) == b * (a * c);
  }

  // Within half a step, and a gap, of the value at full scale.
  predicate Nearly(sample: int, v: real, gap: real) { -0.5 - 32767.0 * gap <= sample as real - 32767.0 * v <= 0.5 + 32767.0 * gap }

  // A share of v is missing.
  lemma ShareMissing(v: real, share: real, gap: real, heard: real)
    requires -1.0 <= v <= 1.0 && 0.0 <= share <= gap <= 1.0 && v - heard == Times(share, v)
    ensures Nearly(FloatPCM(heard), v, gap)
  {
    assert -share <= Times(share, v) <= share by { Sides(share, v); }
    assert -1.0 <= heard <= 1.0 by { Inside(share, v); }
  }

  lemma Sides(share: real, v: real)
    requires share >= 0.0 && -1.0 <= v <= 1.0
    ensures -share <= Times(share, v) <= share
  {
  }

  lemma Inside(share: real, v: real)
    requires 0.0 <= share <= 1.0 && -1.0 <= v <= 1.0
    ensures -1.0 <= v - Times(share, v) <= 1.0
  {
    assert v - Times(share, v) == Times(1.0 - share, v);
    Sides(1.0 - share, v);
  }

  lemma SteadyIsHeard(m: Maths, p: Plan, x: Stream, v: real, j: nat)
    requires m.pi > 0.0 && PlanValid(p) && !p.am && Steady(m, p, x, v) && 0.0 < p.emphasis < 1.0 && -1.0 <= v <= 1.0
    ensures Nearly(Sample(m, p, x, j), v, Power(1.0 - p.emphasis, j))
  {
    hide Steady, Times, Emphasised, Power, Left, FloatPCM, Nearly;
    Settles(m, p, x, v, j);
    LeftIsShare(p);
    PowerShrinks(1.0 - p.emphasis, j, 0);
    Shrinks(Left(p), Power(1.0 - p.emphasis, j));
    FirstPower(1.0 - p.emphasis);
    ShareMissing(v, Times(Left(p), Power(1.0 - p.emphasis, j)), Power(1.0 - p.emphasis, j), Emphasised(m, p, x, j + 1));
  }

  lemma FirstPower(a: real)
    ensures Power(a, 0) == 1.0
  {
  }

  // A carrier delta away from the requested frequency, in the channel and within the deviation.
  ghost predicate Modulated(m: Maths, rate: nat, offset: real, delta: real, mode: Mode, x: Stream, v: real)
    requires rate >= NARROWBAND_RATE && MathsValid(m)
  {
    var p := PlanFor(m, rate, offset, mode);
    && Carrier.IsCarrier(m, x, Carrier.Angle(m, offset + delta, rate)) && Carrier.InsideChannel(rate, delta, p)
    && v * (p.deviation * rate as real) == delta * (p.d1 as real * p.channelRate as real) && -1.0 <= v <= 1.0
  }

  /** From the frequency to the loudspeaker: a carrier delta away from the requested frequency is heard as delta over the
      deviation, at full scale 32767, to half a step and a gap that shrinks by e at every sample, where
      e (1 + 75 microseconds times the audio rate) = 1. */
  lemma CarrierIsHeard(m: Maths, rate: nat, offset: real, delta: real, mode: Mode, x: Stream, v: real, j: nat)
    requires rate >= NARROWBAND_RATE && MathsValid(m) && mode != AM && Modulated(m, rate, offset, delta, mode, x, v)
    ensures m.pi > 0.0 && RatesLaw(rate, mode, PlanFor(m, rate, offset, mode)) && ConstantsLaw(mode, PlanFor(m, rate, offset, mode))
    ensures var p := PlanFor(m, rate, offset, mode); Nearly(Sample(m, p, x, j), v, Power(1.0 - p.emphasis, j))
  {
    hide MathsValid, PlanFor, RatesLaw, Value, Sample, Turned, Power, Nearly, Steady, Carrier.IsCarrier, Carrier.InsideChannel;
    PositivePi(m);
    PlanObeys(m, rate, offset, mode);
    var p := PlanFor(m, rate, offset, mode);
    SteadyCarrier(m, rate, offset, delta, mode, x, v);
    SteadyIsHeard(m, p, x, v, j);
  }

  lemma SteadyCarrier(m: Maths, rate: nat, offset: real, delta: real, mode: Mode, x: Stream, v: real)
    requires rate >= NARROWBAND_RATE && MathsValid(m) && mode != AM && Modulated(m, rate, offset, delta, mode, x, v)
    ensures m.pi > 0.0 && Steady(m, PlanFor(m, rate, offset, mode), x, v)
  {
    hide MathsValid, PlanFor, Value, Turned, Carrier.IsCarrier, Carrier.InsideChannel, Carrier.Proportional;
    PositivePi(m);
    var p := PlanFor(m, rate, offset, mode);
    forall k: nat | k >= 1 ensures Value(m, p, x, k) == v {
      Carrier.FrequencyIsMeasured(m, rate, offset, delta, mode, x, k);
      Carrier.PlanDeviation(m, rate, offset, mode);
      OneValue(Value(m, p, x, k), v, rate, delta, p);
    }
  }

  lemma OneValue(u: real, v: real, rate: nat, delta: real, p: Plan)
    requires rate > 0 && p.deviation > 0.0 && Carrier.Proportional(u, p.deviation, rate, delta, p)
    requires v * (p.deviation * rate as real) == delta * (p.d1 as real * p.channelRate as real)
    ensures u == v
  {
    var k := p.deviation * rate as real;
    Carrier.Positive(p.deviation, rate as real);
    assert k * u == k * v;
    Carrier.Cancel(k, u, v);
  }

  // ---- recordings ----

  ghost predicate Agree(x: Stream, y: Stream, n: nat) { forall i: nat | i < n :: x(i) == y(i) }

  ghost predicate ChannelsAgree(p: Plan, x: Stream, y: Stream, n: nat)
    requires PlanValid(p)
  {
    forall k: nat | k < n :: Channel(p, x, k) == Channel(p, y, k)
  }

  lemma {:induction false} SumsAgree(p: Plan, x: Stream, y: Stream, from: nat, count: nat)
    requires Agree(x, y, from + count)
    ensures MixedSum(p, x, from, count) == MixedSum(p, y, from, count)
  {
    if count > 0 { SumsAgree(p, x, y, from, count - 1); }
  }

  lemma BlocksBefore(k: nat, n: nat, d: nat)
    requires k < n
    ensures k * d + d <= n * d
  {
    assert k * d + d == (k + 1) * d;
    MulMonotone(d, k + 1, n);
  }

  lemma WholeBlocksAgree(p: Plan, x: Stream, y: Stream, n: nat)
    requires PlanValid(p) && Agree(x, y, n * p.d1)
    ensures ChannelsAgree(p, x, y, n)
  {
    hide PlanValid, MixedSum;
    forall k: nat | k < n ensures Channel(p, x, k) == Channel(p, y, k) {
      BlocksBefore(k, n, p.d1);
      SumsAgree(p, x, y, k * p.d1, p.d1);
    }
  }

  lemma {:induction false} LevelsAgree(m: Maths, p: Plan, x: Stream, y: Stream, k: nat)
    requires PlanValid(p) && ChannelsAgree(p, x, y, k)
    ensures Demodulation.Carrier(m, p, x, k) == Demodulation.Carrier(m, p, y, k)
  {
    hide Channel, Toward, PlanValid;
    if k > 0 { LevelsAgree(m, p, x, y, k - 1); }
  }

  lemma {:induction false} ValuesAgree(m: Maths, p: Plan, x: Stream, y: Stream, from: nat, count: nat)
    requires m.pi > 0.0 && PlanValid(p) && ChannelsAgree(p, x, y, from + count)
    ensures ValueSum(m, p, x, from, count) == ValueSum(m, p, y, from, count)
  {
    hide Channel, Discriminated, PlanValid, Toward;
    if count > 0 {
      ValuesAgree(m, p, x, y, from, count - 1);
      LevelsAgree(m, p, x, y, from + count);
    }
  }

  lemma {:induction false} AudioAgrees(m: Maths, p: Plan, x: Stream, y: Stream, j: nat)
    requires m.pi > 0.0 && PlanValid(p) && ChannelsAgree(p, x, y, j * p.d2)
    ensures Emphasised(m, p, x, j) == Emphasised(m, p, y, j)
    ensures j > 0 ==> Block(m, p, x, j - 1) == Block(m, p, y, j - 1)
  {
    hide ValueSum, Channel, Toward, PlanValid;
    if j > 0 {
      BlocksBefore(j - 1, j, p.d2);
      AudioAgrees(m, p, x, y, j - 1);
      ValuesAgree(m, p, x, y, (j - 1) * p.d2, p.d2);
    }
  }

  /** An audio sample depends on the samples up to the end of its blocks only. */
  lemma SampleAgrees(m: Maths, p: Plan, x: Stream, y: Stream, n: nat, j: nat)
    requires m.pi > 0.0 && PlanValid(p) && Agree(x, y, n) && j < PlaceAfter(p, n).j
    ensures Sample(m, p, x, j) == Sample(m, p, y, j)
  {
    hide Emphasised, Block, FloatPCM, PlaceAfter;
    var at := PlaceAfter(p, n);
    BlocksBefore(j, at.j, p.d2);
    BlocksFit(j, at.j, at.t, at.r, p.d1, p.d2, n);
    WholeBlocksAgree(p, x, y, (j + 1) * p.d2);
    AudioAgrees(m, p, x, y, j + 1);
  }

  lemma BlocksFit(j: nat, i: nat, t: nat, r: nat, d1: nat, d2: nat, n: nat)
    requires j < i && n == (i * d2 + t) * d1 + r
    ensures (j + 1) * d2 * d1 <= n
  {
    MulMonotone(d2, j + 1, i);
    MulMonotone(d1, (j + 1) * d2, i * d2 + t);
  }

  /** So every audio sample of a recorded carrier, read in any pieces, is what the frequency of the carrier says. */
  lemma RecordingIsHeard(m: Maths, rate: nat, offset: real, delta: real, mode: Mode, samples: seq<IQ>, v: real, j: nat)
    requires rate >= NARROWBAND_RATE && MathsValid(m) && mode != AM
    requires forall n | 0 <= n < |samples| :: samples[n] == Turned(m, Multiple(n, Carrier.Angle(m, offset + delta, rate)))
    requires Modulated(m, rate, offset, delta, mode, (n: nat) => Turned(m, Multiple(n, Carrier.Angle(m, offset + delta, rate))), v)
    requires j < PlaceAfter(PlanFor(m, rate, offset, mode), |samples|).j
    ensures m.pi > 0.0
    ensures var p := PlanFor(m, rate, offset, mode);
            Nearly(Sample(m, p, Streaming.StreamOf(samples), j), v, Power(1.0 - p.emphasis, j))
  {
    hide MathsValid, PlanFor, Sample, Turned, Multiple, Power, Nearly, Modulated, PlaceAfter, RatesLaw, ConstantsLaw;
    var x: Stream := (n: nat) => Turned(m, Multiple(n, Carrier.Angle(m, offset + delta, rate)));
    CarrierIsHeard(m, rate, offset, delta, mode, x, v, j);
    SampleAgrees(m, PlanFor(m, rate, offset, mode), Streaming.StreamOf(samples), x, |samples|, j);
  }

  // ---- AM ----

  /** The tracked level approaches a steady carrier geometrically. */
  lemma {:induction false} LevelFollows(m: Maths, p: Plan, x: Stream, k: nat)
    requires PlanValid(p) && forall i: nat :: Magnitude(m, p, x, i) == 1.0
    ensures 1.0 - Demodulation.Carrier(m, p, x, k) == Power(1.0 - p.dcAlpha, k)
  {
    hide Magnitude, Toward, Times;
    if k > 0 {
      LevelFollows(m, p, x, k - 1);
      GapCloses(Demodulation.Carrier(m, p, x, k - 1), 1.0, p.dcAlpha);
    }
  }

  lemma {:induction false} FadingSum(m: Maths, p: Plan, x: Stream, from: nat, count: nat)
    requires m.pi > 0.0 && PlanValid(p) && p.am && 0.0 < p.dcAlpha < 1.0 && forall i: nat :: Magnitude(m, p, x, i) == 1.0
    ensures 0.0 <= ValueSum(m, p, x, from, count) <= Times(count as real, Power(1.0 - p.dcAlpha, from + 1))
  {
    hide Magnitude, Demodulation.Carrier, Power, Times, PlanValid;
    if count == 0 {
      TimesZero(Power(1.0 - p.dcAlpha, from + 1));
    } else {
      FadingSum(m, p, x, from, count - 1);
      LevelFollows(m, p, x, from + count);
      PowerShrinks(1.0 - p.dcAlpha, from + count, from + 1);
      OneMore(count - 1, Power(1.0 - p.dcAlpha, from + 1));
    }
  }

  lemma TimesZero(a: real)
    ensures Times(0.0, a) == 0.0
  {
  }

  lemma FadingMean(sum: real, n: nat, bound: real)
    requires n > 0 && 0.0 <= sum <= Times(n as real, bound)
    ensures 0.0 <= sum / n as real <= bound
  {
    var q := sum / n as real;
    assert q * n as real == sum;
    assert (q - bound) * n as real == q * n as real - n as real * bound;
    if q < 0.0 { NotPositive(q, n as real); }
    if q > bound { Carrier.Positive(q - bound, n as real); }
  }

  // How many channel samples come before an audio sample.
  function Earlier(p: Plan, j: nat): nat { j * p.d2 }

  /** A plain carrier at the requested frequency, in AM: the level it is compared with approaches it, and the audio is
      gone but for half a step and a bound that shrinks at every channel sample. */
  lemma PlainCarrierFades(m: Maths, rate: nat, offset: real, x: Stream, j: nat)
    requires rate >= NARROWBAND_RATE && MathsValid(m) && Carrier.IsCarrier(m, x, 2.0 * m.pi * offset / rate as real)
    ensures m.pi > 0.0 && ConstantsLaw(AM, PlanFor(m, rate, offset, AM))
    ensures var p := PlanFor(m, rate, offset, AM);
            0 <= Sample(m, p, x, j) && Sample(m, p, x, j) as real <= 32767.0 * Power(1.0 - p.dcAlpha, Earlier(p, j) + 1) + 0.5
  {
    hide MathsValid, PlanFor, Carrier.IsCarrier, Power, Times, Magnitude, ValueSum, FloatPCM;
    PositivePi(m);
    PlanObeys(m, rate, offset, AM);
    var p := PlanFor(m, rate, offset, AM);
    forall i: nat ensures Magnitude(m, p, x, i) == 1.0 {
      Carrier.CarrierRests(m, rate, offset, AM, x, i);
      RestHasUnitLevel(m, p, x, i);
    }
    FadingSum(m, p, x, j * p.d2, p.d2);
    var bound := Power(1.0 - p.dcAlpha, Earlier(p, j) + 1);
    FadingMean(ValueSum(m, p, x, j * p.d2, p.d2), p.d2, bound);
    PowerShrinks(1.0 - p.dcAlpha, Earlier(p, j) + 1, 0);
    Heard(Block(m, p, x, j), bound);
  }

  lemma RestHasUnitLevel(m: Maths, p: Plan, x: Stream, k: nat)
    requires MathsValid(m) && PlanValid(p) && Channel(p, x, k) == IQ(1.0, 0.0)
    ensures Magnitude(m, p, x, k) == 1.0
  {
    hide MathsValid, Channel;
    RenormalisingIsIdle(m, IQ(1.0, 0.0));
  }

  lemma Heard(value: real, bound: real)
    requires 0.0 <= value <= bound <= 1.0
    ensures 0 <= FloatPCM(value) && FloatPCM(value) as real <= 32767.0 * bound + 0.5
  {
  }
}
