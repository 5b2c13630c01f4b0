/** What the demodulator of server/internal/app/dsp.go makes of a carrier: the mixer brings the requested frequency
    to zero, and the discriminator measures how far a carrier is from it. */
module Carrier {
  import opened GoMath
  import opened Signal
  import opened Demodulation

  // ---- sums of samples ----

  lemma MixPlus(a: IQ, b: IQ, c: IQ)
    ensures Mix(a, Plus(b, c)) == Plus(Mix(a, b), Mix(a, c))
  {
  }

  lemma MixOver(a: IQ, b: IQ, n: nat)
    requires n > 0
    ensures Mix(a, Over(b, n)) == Over(Mix(a, b), n)
  {
    Halves(a.i, b.i, a.q, b.q, n as real);
    Halves(a.i, b.q, -a.q, b.i, n as real);
  }

  lemma Halves(a: real, b: real, c: real, d: real, n: real)
    requires n > 0.0
    ensures a * (b / n) - c * (d / n) == (a * b - c * d) / n
  {
    assert a * (b / n) == (a * b) / n;
    assert c * (d / n) == (c * d) / n;
  }

  lemma MixAssociates(a: IQ, b: IQ, c: IQ)
    ensures Mix(Mix(a, b), c) == Mix(a, Mix(b, c))
  {
  }

  // A carrier with this angle between samples.
  ghost predicate IsCarrier(m: Maths, x: Stream, angle: real) {
    forall n: nat :: x(n) == Turned(m, Multiple(n, angle))
  }

  // The first samples of a carrier, added up.
  function TurnSum(m: Maths, angle: real, count: nat): IQ {
    if count == 0 then ZERO else Plus(TurnSum(m, angle, count - 1), Turned(m, Multiple(count - 1, angle)))
  }

  // ---- the mixer ----

  lemma Shifted(n: nat, a: real, b: real)
    ensures Multiple(n, a) + Multiple(n, b) == Multiple(n, a + b)
  {
  }

  lemma MultipleSum(n: nat, k: nat, a: real)
    ensures Multiple(n, a) + Multiple(k, a) == Multiple(n + k, a)
  {
  }

  // The carrier and the mixer's rotation turn together.
  lemma MixedCarrier(m: Maths, p: Plan, x: Stream, angle: real, step: real, n: nat)
    requires MathsValid(m) && p.step == Turned(m, step) && IsCarrier(m, x, angle)
    ensures Mix(x(n), Rotation(p, n)) == Turned(m, Multiple(n, angle + step))
  {
    hide MathsValid, Mix, Turned, Multiple, Rotation;
    PowersOfStep(m, p, step, n);
    AnglesLaws(m, Multiple(n, angle), Multiple(n, step));
    Shifted(n, angle, step);
  }

  lemma {:induction false} MixedCarrierSum(m: Maths, p: Plan, x: Stream, angle: real, step: real, from: nat, count: nat)
    requires MathsValid(m) && p.step == Turned(m, step) && IsCarrier(m, x, angle)
    ensures MixedSum(p, x, from, count) == Mix(Turned(m, Multiple(from, angle + step)), TurnSum(m, angle + step, count))
  {
    hide MathsValid, Mix, Plus, Turned, Multiple, Rotation, IsCarrier;
    var beat := angle + step;
    if count == 0 {
      MixZero(Turned(m, Multiple(from, beat)));
    } else {
      var n := count - 1;
      MixedCarrierSum(m, p, x, angle, step, from, n);
      MixedCarrier(m, p, x, angle, step, from + n);
      MultipleSum(from, n, beat);
      AnglesLaws(m, Multiple(from, beat), Multiple(n, beat));
      MixPlus(Turned(m, Multiple(from, beat)), TurnSum(m, beat, n), Turned(m, Multiple(n, beat)));
    }
  }

  lemma MixZero(a: IQ)
    ensures Mix(a, ZERO) == ZERO
  {
  }

  // The mean of the first samples of the beat.
  function MeanTurn(m: Maths, p: Plan, beat: real): IQ
    requires p.d1 > 0
  {
    Over(TurnSum(m, beat, p.d1), p.d1)
  }

  // How far the beat has turned at the start of block k.
  function BlockTurn(m: Maths, p: Plan, beat: real, k: nat): IQ { Turned(m, Multiple(k * p.d1, beat)) }

  lemma ChannelOfCarrier(m: Maths, p: Plan, x: Stream, angle: real, step: real, beat: real, k: nat)
    requires MathsValid(m) && PlanValid(p) && p.step == Turned(m, step) && IsCarrier(m, x, angle) && beat == angle + step
    ensures Channel(p, x, k) == Mix(BlockTurn(m, p, beat, k), MeanTurn(m, p, beat))
  {
    hide MathsValid, Mix, Plus, Over, Turned, Multiple, Rotation, IsCarrier, MixedSum, TurnSum, Norm;
    MixedCarrierSum(m, p, x, angle, step, k * p.d1, p.d1);
    MixOver(Turned(m, Multiple(k * p.d1, beat)), TurnSum(m, beat, p.d1), p.d1);
  }

  // ---- the carrier at the requested frequency ----

  // The angle between samples of a carrier at this frequency.
  function Angle(m: Maths, hz: real, rate: nat): real
    requires rate > 0
  {
    2.0 * m.pi * hz / rate as real
  }

  /** The step undoes the requested offset: a carrier further off by delta beats at delta. */
  lemma StepUndoes(m: Maths, rate: nat, offset: real, delta: real)
    requires rate > 0
    ensures Angle(m, offset + delta, rate) + PhaseStep(m, rate, offset) == Angle(m, delta, rate)
  {
    var r := rate as real;
    OverSum(2.0 * m.pi * (offset + delta), -2.0 * m.pi * offset, r);
    assert 2.0 * m.pi * (offset + delta) + -2.0 * m.pi * offset == 2.0 * m.pi * delta;
  }

  lemma OverSum(a: real, b: real, r: real)
    requires r > 0.0
    ensures a / r + b / r == (a + b) / r
  {
  }

  lemma MultipleZero(n: nat)
    ensures Multiple(n, 0.0) == 0.0
  {
  }

  lemma {:induction false} StillSum(m: Maths, count: nat)
    requires MathsValid(m)
    ensures TurnSum(m, 0.0, count) == IQ(count as real, 0.0)
  {
    hide MathsValid, Turned, Multiple;
    if count > 0 {
      StillSum(m, count - 1);
      AtRest(m, count - 1);
    }
  }

  lemma AtRest(m: Maths, n: nat)
    requires MathsValid(m)
    ensures Turned(m, Multiple(n, 0.0)) == IQ(1.0, 0.0)
  {
    MultipleZero(n);
    hide Mix, Norm, Multiple;
  }

  lemma Unit(b: IQ, n: nat)
    requires n > 0 && b == IQ(n as real, 0.0)
    ensures Mix(IQ(1.0, 0.0), Over(b, n)) == IQ(1.0, 0.0)
  {
  }

  lemma NoAngle(m: Maths, rate: nat)
    requires rate > 0
    ensures Angle(m, 0.0, rate) == 0.0
  {
  }

  lemma BlockRests(m: Maths, p: Plan, k: nat)
    requires MathsValid(m) && p.d1 > 0
    ensures BlockTurn(m, p, 0.0, k) == IQ(1.0, 0.0) && MeanTurn(m, p, 0.0) == Over(IQ(p.d1 as real, 0.0), p.d1)
  {
    hide MathsValid, Over, Turned, Multiple, TurnSum;
    AtRest(m, k * p.d1);
    StillSum(m, p.d1);
  }

  lemma ChannelRests(m: Maths, p: Plan, x: Stream, angle: real, step: real, k: nat)
    requires MathsValid(m) && PlanValid(p) && p.step == Turned(m, step) && IsCarrier(m, x, angle) && angle + step == 0.0
    ensures Channel(p, x, k) == IQ(1.0, 0.0)
  {
    hide MathsValid, Mix, Over, Turned, Multiple, Channel, IsCarrier, BlockTurn, MeanTurn, Norm;
    ChannelOfCarrier(m, p, x, angle, step, 0.0, k);
    BlockRests(m, p, k);
    Unit(IQ(p.d1 as real, 0.0), p.d1);
  }

  /** A carrier at the requested offset from the hardware centre comes to rest: every channel sample is 1. */
  lemma CarrierRests(m: Maths, rate: nat, offset: real, mode: Mode, x: Stream, k: nat)
    requires rate >= NARROWBAND_RATE && MathsValid(m) && IsCarrier(m, x, 2.0 * m.pi * offset / rate as real)
    ensures Channel(PlanFor(m, rate, offset, mode), x, k) == IQ(1.0, 0.0)
  {
    StepUndoes(m, rate, offset, 0.0);
    NoAngle(m, rate);
    assert Angle(m, offset + 0.0, rate) == 2.0 * m.pi * offset / rate as real;
    hide MathsValid, PlanFor, Channel, Turned, IsCarrier, PhaseStep, Angle;
    StepIsTurned(m, rate, offset, mode);
    ChannelRests(m, PlanFor(m, rate, offset, mode), x, Angle(m, offset + 0.0, rate), PhaseStep(m, rate, offset), k);
  }

  // ---- the discriminator ----

  // A sample, turned on by t: the two arguments of the arctangent.
  lemma BeatOf(t: IQ, b: IQ)
    ensures Beat(Mix(t, b), b) == IQ(Norm(b) * t.i, Norm(b) * t.q)
  {
    var ti, tq, bi, bq := t.i, t.q, b.i, b.q;
    assert (ti * bq + tq * bi) * bi - (ti * bi - tq * bq) * bq == (bi * bi + bq * bq) * tq by { Cross(ti, tq, bi, bq); }
    assert (ti * bi - tq * bq) * bi + (ti * bq + tq * bi) * bq == (bi * bi + bq * bq) * ti by { Dots(ti, tq, bi, bq); }
  }

  lemma Cross(a: real, b: real, c: real, d: real)
    ensures (a * d + b * c) * c - (a * c - b * d) * d == (c * c + d * d) * b
  {
    assert (a * d + b * c) * c == a * d * c + b * (c * c);
    assert (a * c - b * d) * d == a * c * d - b * (d * d);
  }

  lemma Dots(a: real, b: real, c: real, d: real)
    ensures (a * c - b * d) * c + (a * d + b * c) * d == (c * c + d * d) * a
  {
    assert (a * c - b * d) * c == a * (c * c) - b * d * c;
    assert (a * d + b * c) * d == a * (d * d) + b * c * d;
  }

  lemma BlockOn(m: Maths, p: Plan, beat: real, k: nat)
    requires MathsValid(m) && k >= 1
    ensures BlockTurn(m, p, beat, k) == Mix(Turned(m, Multiple(p.d1, beat)), BlockTurn(m, p, beat, k - 1))
  {
    hide MathsValid, Mix, Turned, Multiple;
    assert k * p.d1 == p.d1 + (k - 1) * p.d1;
    MultipleSum(p.d1, (k - 1) * p.d1, beat);
    AnglesLaws(m, Multiple(p.d1, beat), Multiple((k - 1) * p.d1, beat));
  }

  lemma BlockIsUnit(m: Maths, p: Plan, beat: real, k: nat)
    requires MathsValid(m)
    ensures Norm(BlockTurn(m, p, beat, k)) == 1.0
  {
    hide Multiple, Mix, Norm;
  }

  /** From block to block a carrier turns by the beat over a block: what the discriminator hands to the arctangent is
      the sine and the cosine of that turn, times the power of the block. */
  lemma Discriminates(m: Maths, p: Plan, x: Stream, angle: real, step: real, beat: real, k: nat)
    requires MathsValid(m) && PlanValid(p) && p.step == Turned(m, step) && IsCarrier(m, x, angle) && beat == angle + step
    requires k >= 1
    ensures Beat(Channel(p, x, k), Channel(p, x, k - 1)) == Polar(m, Norm(MeanTurn(m, p, beat)), Multiple(p.d1, beat))
  {
    hide MathsValid, Mix, Multiple, Channel, IsCarrier, BlockTurn, MeanTurn, Norm, Beat;
    ChannelOfCarrier(m, p, x, angle, step, beat, k);
    ChannelOfCarrier(m, p, x, angle, step, beat, k - 1);
    BlockOn(m, p, beat, k);
    var t := Turned(m, Multiple(p.d1, beat));
    MixAssociates(t, BlockTurn(m, p, beat, k - 1), MeanTurn(m, p, beat));
    BeatOf(t, Channel(p, x, k - 1));
    NormOfMix(BlockTurn(m, p, beat, k - 1), MeanTurn(m, p, beat));
    BlockIsUnit(m, p, beat, k - 1);
  }

  // ---- a block does not cancel itself out ----

  // Tilted by half a block, all samples of a block are in the right half plane.
  lemma HalfTilt(j: nat, d: nat, beat: real, pi: real)
    requires j < d && -pi < Multiple(d, beat) < pi
    ensures -pi < 2.0 * (Multiple(j, beat) - (d - 1) as real * beat / 2.0) < pi
  {
    var s := (2 * j) as real - (d - 1) as real;
    assert 2.0 * (Multiple(j, beat) - (d - 1) as real * beat / 2.0) == s * beat;
    SmallerTimes(s, d as real, beat);
  }

  lemma SmallerTimes(s: real, d: real, beat: real)
    requires -d < s < d
    ensures if beat >= 0.0 then -(d * beat) <= s * beat <= d * beat else d * beat <= s * beat <= -(d * beat)
  {
    if beat >= 0.0 {
      NotNegative(d - s, beat);
      NotNegative(d + s, beat);
    } else {
      NotNegative(d - s, -beat);
      NotNegative(d + s, -beat);
    }
  }

  lemma NotNegative(a: real, b: real)
    requires a >= 0.0 && b >= 0.0
    ensures a * b >= 0.0
  {
  }

  lemma {:induction false} TiltedSum(m: Maths, beat: real, tilt: real, count: nat, d: nat)
    requires MathsValid(m) && 1 <= count <= d
    requires forall j: nat | j < d :: -m.pi < 2.0 * (Multiple(j, beat) + tilt) < m.pi
    ensures Mix(Turned(m, tilt), TurnSum(m, beat, count)).i > 0.0
  {
    hide MathsValid, Multiple;
    var n := count - 1;
    TiltedOne(m, beat, tilt, n);
    MixPlus(Turned(m, tilt), TurnSum(m, beat, n), Turned(m, Multiple(n, beat)));
    if n == 0 {
      MixZero(Turned(m, tilt));
    } else {
      TiltedSum(m, beat, tilt, n, d);
    }
  }

  lemma TiltedOne(m: Maths, beat: real, tilt: real, j: nat)
    requires MathsValid(m) && -m.pi < 2.0 * (Multiple(j, beat) + tilt) < m.pi
    ensures Mix(Turned(m, tilt), Turned(m, Multiple(j, beat))).i > 0.0
  {
    hide Mix, Multiple, Norm;
    AnglesLaws(m, tilt, Multiple(j, beat));
    assert CosinePositive(m, tilt + Multiple(j, beat));
  }

  lemma PositiveNorm(a: IQ)
    requires a.i > 0.0
    ensures Norm(a) > 0.0
  {
    hide Norm;
    SquaresPositive(a.i, a.q);
    assert a == IQ(a.i, a.q);
  }

  lemma NormOver(a: IQ, n: nat)
    requires n > 0 && Norm(a) > 0.0
    ensures Norm(Over(a, n)) > 0.0
  {
    var r, o := n as real, Over(a, n);
    assert o.i * r == a.i && o.q * r == a.q;
    assert (o.i == 0.0 ==> a.i == 0.0) && (o.q == 0.0 ==> a.q == 0.0);
    assert Norm(a) > 0.0 ==> a.i != 0.0 || a.q != 0.0;
    SquaresPositive(o.i, o.q);
    assert o == IQ(o.i, o.q);
  }

  lemma SquaresPositive(a: real, b: real)
    requires a != 0.0 || b != 0.0
    ensures Norm(IQ(a, b)) > 0.0
  {
    NormIs(a, b);
    hide Norm, Square;
    if a != 0.0 {
      SquareSign(a);
      SquareSign(b);
    } else {
      SquareSign(b);
      SquareSign(a);
    }
  }

  function Times(a: real, b: real): real { a * b }

  function Square(a: real): real { Times(a, a) }

  lemma NormIs(a: real, b: real)
    ensures Norm(IQ(a, b)) == Square(a) + Square(b)
  {
  }

  lemma SquareSign(a: real)
    ensures Square(a) >= 0.0 && (a != 0.0 ==> Square(a) > 0.0)
  {
    hide Square;
    SquareNegates(a);
    if a > 0.0 { SquareGrows(a); }
    if a < 0.0 { SquareGrows(-a); }
    SquareZero();
  }

  lemma SquareNegates(a: real)
    ensures Square(-a) == Square(a)
  {
  }

  lemma SquareGrows(a: real)
    requires a > 0.0
    ensures Square(a) > 0.0
  {
    hide Times;
    PositiveTimes(a, a);
  }

  lemma PositiveTimes(a: real, b: real)
    requires a > 0.0 && b > 0.0
    ensures Times(a, b) > 0.0
  {
  }

  lemma SquareZero()
    ensures Square(0.0) == 0.0
  {
  }

  /** Within the channel, less than half a turn over a block, the block has power. */
  lemma BlockHasPower(m: Maths, p: Plan, beat: real)
    requires MathsValid(m) && p.d1 > 0 && -m.pi < Multiple(p.d1, beat) < m.pi
    ensures Norm(MeanTurn(m, p, beat)) > 0.0
  {
    hide MathsValid, Mix, Turned, Norm, Over;
    var tilt := -((p.d1 - 1) as real * beat / 2.0);
    forall j: nat | j < p.d1 ensures -m.pi < 2.0 * (Multiple(j, beat) + tilt) < m.pi { HalfTilt(j, p.d1, beat, m.pi); }
    hide Multiple;
    TiltedSum(m, beat, tilt, p.d1, p.d1);
    var sum := TurnSum(m, beat, p.d1);
    PositiveNorm(Mix(Turned(m, tilt), sum));
    NormOfMix(Turned(m, tilt), sum);
    TurnedIsUnit(m, tilt);
    NormOver(sum, p.d1);
  }

  lemma TurnedIsUnit(m: Maths, a: real)
    requires MathsValid(m)
    ensures Norm(Turned(m, a)) == 1.0
  {
    hide Mix;
  }

  // ---- what is heard ----

  lemma Arctan(m: Maths, r: real, a: real, b: IQ)
    requires MathsValid(m) && r > 0.0 && -m.pi < a < m.pi && b == Polar(m, r, a)
    ensures m.atan2(b.q, b.i) == a
  {
    hide Mix, Norm, Turned, Polar;
    assert AngleOf(m, r, a);
  }

  lemma ValueOfCarrier(m: Maths, p: Plan, x: Stream, angle: real, step: real, beat: real, k: nat)
    requires MathsValid(m) && PlanValid(p) && p.step == Turned(m, step) && IsCarrier(m, x, angle) && beat == angle + step
    requires k >= 1 && !p.am && -m.pi < Multiple(p.d1, beat) < m.pi
    ensures m.pi > 0.0
    ensures Value(m, p, x, k) == Share(m, p, Multiple(p.d1, beat))
  {
    PositivePi(m);
    BlockHasPower(m, p, beat);
    hide MathsValid, Mix, Multiple, Channel, IsCarrier, MeanTurn, Norm, Polar, Beat, Share;
    Discriminates(m, p, x, angle, step, beat, k);
    Arctan(m, Norm(MeanTurn(m, p, beat)), Multiple(p.d1, beat), Beat(Channel(p, x, k), Channel(p, x, k - 1)));
  }

  /** A value that is to the deviation as delta is, but for the rounding of the channel rate. */
  predicate Proportional(value: real, deviation: real, rate: nat, delta: real, p: Plan) {
    value * (deviation * rate as real) == delta * (p.d1 as real * p.channelRate as real)
  }

  // Less than half a turn from block to block.
  predicate InsideChannel(rate: nat, delta: real, p: Plan) {
    -(rate as real) < 2.0 * delta * p.d1 as real < rate as real
  }

  lemma ShareOf(m: Maths, p: Plan, turn: real)
    requires m.pi > 0.0 && p.deviation > 0.0
    ensures Share(m, p, turn) * (2.0 * m.pi * p.deviation) == turn * p.channelRate as real
  {
    var a, b := turn * p.channelRate as real, 2.0 * m.pi * p.deviation;
    assert (a / b) * b == a;
  }

  lemma Proportion(m: Maths, p: Plan, delta: real, rate: nat)
    requires rate > 0 && m.pi > 0.0 && p.deviation > 0.0
    ensures Proportional(Share(m, p, Multiple(p.d1, Angle(m, delta, rate))), p.deviation, rate, delta, p)
  {
    var turn := Multiple(p.d1, Angle(m, delta, rate));
    var v := Share(m, p, turn);
    ShareOf(m, p, turn);
    AngleTimes(m, delta, rate);
    ProportionOf(p.d1 as real, delta, rate as real, m.pi, p.channelRate as real, p.deviation, Angle(m, delta, rate), turn, v);
  }

  lemma AngleTimes(m: Maths, delta: real, rate: nat)
    requires rate > 0
    ensures Angle(m, delta, rate) * rate as real == 2.0 * m.pi * delta
  {
  }

  lemma ProportionOf(d: real, delta: real, r: real, pi: real, c: real, dev: real, q: real, turn: real, v: real)
    requires pi > 0.0 && q * r == 2.0 * pi * delta && turn == d * q && v * (2.0 * pi * dev) == turn * c
    ensures v * (dev * r) == delta * (d * c)
  {
    var left, right := v * (dev * r), delta * (d * c);
    assert (2.0 * pi) * left == (v * (2.0 * pi * dev)) * r by { Reordered(pi, v, dev, r); }
    assert (turn * c) * r == (d * c) * (q * r) by { Reordered2(d, q, c, r); }
    assert (d * c) * (2.0 * pi * delta) == (2.0 * pi) * right by { Reordered3(d * c, pi, delta); }
    Cancel(2.0 * pi, left, right);
  }

  lemma Reordered(pi: real, v: real, dev: real, r: real)
    ensures (2.0 * pi) * (v * (dev * r)) == (v * (2.0 * pi * dev)) * r
  {
  }

  lemma Reordered2(d: real, q: real, c: real, r: real)
    ensures ((d * q) * c) * r == (d * c) * (q * r)
  {
  }

  lemma Reordered3(a: real, pi: real, delta: real)
    ensures a * (2.0 * pi * delta) == (2.0 * pi) * (delta * a)
  {
  }

  lemma Cancel(k: real, a: real, b: real)
    requires k > 0.0 && k * a == k * b
    ensures a == b
  {
    assert k * (a - b) == 0.0;
    NoZeroDivisor(a - b, k);
  }

  lemma LessThanHalfTurn(m: Maths, p: Plan, delta: real, rate: nat)
    requires rate > 0 && m.pi > 0.0 && InsideChannel(rate, delta, p)
    ensures -m.pi < Multiple(p.d1, Angle(m, delta, rate)) < m.pi
  {
    var r, q, d, pi := rate as real, Angle(m, delta, rate), p.d1, m.pi;
    var turn := Multiple(d, q);
    AngleTimes(m, delta, rate);
    assert turn * r == pi * (2.0 * delta * d as real) by { TurnTimes(d as real, q, r, pi, delta); }
    if turn >= pi { NotNegative(turn - pi, r); Positive(pi, r - 2.0 * delta * d as real); }
    if turn <= -pi { NotNegative(-pi - turn, r); Positive(pi, r + 2.0 * delta * d as real); }
  }

  lemma TurnTimes(d: real, q: real, r: real, pi: real, delta: real)
    requires q * r == 2.0 * pi * delta
    ensures (d * q) * r == pi * (2.0 * delta * d)
  {
    assert (d * q) * r == d * (q * r);
  }

  lemma Positive(a: real, b: real)
    requires a > 0.0 && b > 0.0
    ensures a * b > 0.0
  {
  }

  lemma Measured(m: Maths, p: Plan, rate: nat, offset: real, delta: real, x: Stream, k: nat)
    requires MathsValid(m) && PlanValid(p) && rate > 0 && p.step == Turned(m, PhaseStep(m, rate, offset)) && !p.am && k >= 1
    requires IsCarrier(m, x, Angle(m, offset + delta, rate)) && InsideChannel(rate, delta, p)
    ensures m.pi > 0.0
    ensures Proportional(Value(m, p, x, k), p.deviation, rate, delta, p)
  {
    hide MathsValid, Turned, IsCarrier, PhaseStep, Value, Multiple, Norm, Angle, InsideChannel, Proportional, Share;
    PositivePi(m);
    StepUndoes(m, rate, offset, delta);
    LessThanHalfTurn(m, p, delta, rate);
    var beat := Angle(m, delta, rate);
    ValueOfCarrier(m, p, x, Angle(m, offset + delta, rate), PhaseStep(m, rate, offset), beat, k);
    Proportion(m, p, delta, rate);
  }

  /** The discriminator measures frequency: for a carrier delta away from the requested one, inside the channel, each
      channel value but the first is to 75 kHz in the wide modes, and to 5 kHz in the others, as delta is, but for
      the rounding of the channel rate. */
  lemma FrequencyIsMeasured(m: Maths, rate: nat, offset: real, delta: real, mode: Mode, x: Stream, k: nat)
    requires rate >= NARROWBAND_RATE && MathsValid(m) && IsCarrier(m, x, Angle(m, offset + delta, rate))
    requires mode != AM && k >= 1 && InsideChannel(rate, delta, PlanFor(m, rate, offset, mode))
    ensures m.pi > 0.0
    ensures var p, deviation := PlanFor(m, rate, offset, mode), if mode == WFM || mode == FM then 75000.0 else 5000.0;
            Proportional(Value(m, p, x, k), deviation, rate, delta, p)
  {
    hide MathsValid, PlanFor, Turned, IsCarrier, PhaseStep, Value, PlanValid, Angle, InsideChannel, Proportional;
    PositivePi(m);
    PlanDeviation(m, rate, offset, mode);
    StepIsTurned(m, rate, offset, mode);
    Measured(m, PlanFor(m, rate, offset, mode), rate, offset, delta, x, k);
  }

  lemma PlanDeviation(m: Maths, rate: nat, offset: real, mode: Mode)
    requires rate >= NARROWBAND_RATE && MathsValid(m)
    ensures PlanFor(m, rate, offset, mode).deviation == if mode == WFM || mode == FM then 75000.0 else 5000.0
    ensures PlanFor(m, rate, offset, mode).am <==> mode == AM
  {
    hide MathsValid, PlanValid, PhaseStep, Norm, Nominal;
  }

  lemma {:induction false} ValuesAreZero(m: Maths, p: Plan, x: Stream, from: nat, count: nat)
    requires m.pi > 0.0 && PlanValid(p) && forall k: nat :: Value(m, p, x, k) == 0.0
    ensures ValueSum(m, p, x, from, count) == 0.0
  {
    hide Value, PlanValid;
    if count > 0 { ValuesAreZero(m, p, x, from, count - 1); }
  }

  lemma {:induction false} NothingToEmphasise(m: Maths, p: Plan, x: Stream, j: nat)
    requires m.pi > 0.0 && PlanValid(p) && forall k: nat :: Value(m, p, x, k) == 0.0
    ensures Emphasised(m, p, x, j) == 0.0
  {
    hide Value, ValueSum;
    if j > 0 {
      NothingToEmphasise(m, p, x, j - 1);
      ValuesAreZero(m, p, x, (j - 1) * p.d2, p.d2);
      assert Block(m, p, x, j - 1) == 0.0;
    }
  }

  lemma SilentValues(m: Maths, p: Plan, x: Stream, j: nat)
    requires m.pi > 0.0 && PlanValid(p) && !p.am && forall k: nat :: Value(m, p, x, k) == 0.0
    ensures Sample(m, p, x, j) == 0
  {
    hide Value, Emphasised, PlanValid;
    NothingToEmphasise(m, p, x, j + 1);
    assert FloatPCM(0.0) == 0;
  }

  lemma ValueRests(m: Maths, rate: nat, offset: real, mode: Mode, x: Stream, k: nat)
    requires rate >= NARROWBAND_RATE && MathsValid(m) && IsCarrier(m, x, 2.0 * m.pi * offset / rate as real) && mode != AM
    ensures m.pi > 0.0 && Value(m, PlanFor(m, rate, offset, mode), x, k) == 0.0
  {
    hide MathsValid, PlanFor, Turned, IsCarrier, Value, Channel;
    PlanDeviation(m, rate, offset, mode);
    CarrierRests(m, rate, offset, mode, x, k);
    if k > 0 { CarrierRests(m, rate, offset, mode, x, k - 1); }
    RestIsZero(m, PlanFor(m, rate, offset, mode), x, k);
  }

  /** So the FM audio of a carrier at the requested frequency is silence. */
  lemma CarrierIsSilent(m: Maths, rate: nat, offset: real, mode: Mode, x: Stream, j: nat)
    requires rate >= NARROWBAND_RATE && MathsValid(m) && IsCarrier(m, x, 2.0 * m.pi * offset / rate as real) && mode != AM
    ensures m.pi > 0.0
    ensures Sample(m, PlanFor(m, rate, offset, mode), x, j) == 0
  {
    hide MathsValid, PlanFor, Turned, IsCarrier, Value, Sample;
    PositivePi(m);
    PlanDeviation(m, rate, offset, mode);
    forall k: nat ensures Value(m, PlanFor(m, rate, offset, mode), x, k) == 0.0 { ValueRests(m, rate, offset, mode, x, k); }
    SilentValues(m, PlanFor(m, rate, offset, mode), x, j);
  }

  lemma RestIsZero(m: Maths, p: Plan, x: Stream, k: nat)
    requires MathsValid(m) && PlanValid(p) && !p.am
    requires k > 0 ==> Channel(p, x, k) == Channel(p, x, k - 1) == IQ(1.0, 0.0)
    ensures m.pi > 0.0 && Value(m, p, x, k) == 0.0
  {
    PositivePi(m);
    NoTurn(m);
    if k > 0 { NoDiscrimination(m, p); }
    hide MathsValid, Channel, Discriminated, Norm;
  }

  lemma NoDiscrimination(m: Maths, p: Plan)
    requires m.pi > 0.0 && p.deviation > 0.0 && m.atan2(0.0, 1.0) == 0.0
    ensures Discriminated(m, p, IQ(1.0, 0.0), IQ(1.0, 0.0)) == 0.0
  {
    hide Beat, Share;
    NoBeat();
    ShareZero(m, p);
  }

  lemma NoBeat()
    ensures Beat(IQ(1.0, 0.0), IQ(1.0, 0.0)) == IQ(1.0, 0.0)
  {
  }

  lemma ShareZero(m: Maths, p: Plan)
    requires m.pi > 0.0 && p.deviation > 0.0
    ensures Share(m, p, 0.0) == 0.0
  {
    var b := 2.0 * m.pi * p.deviation;
    assert 0.0 * p.channelRate as real == 0.0 && 0.0 / b == 0.0;
  }

  lemma NoTurn(m: Maths)
    requires MathsValid(m)
    ensures m.atan2(0.0, 1.0) == 0.0
  {
    hide Mix, Norm;
    assert AngleOf(m, 1.0, 0.0);
    assert Turned(m, 0.0) == IQ(1.0, 0.0);
  }
}
