/** The adaptive gain controller of server/internal/app/mapper_tuning.go.  What a capture measured (RMS and
    peak level in dBFS, percent of clipped samples) is an input; the texts that describe decisions are not
    part of the model. */
module Tuning {
  import opened Wrappers

  datatype Levels = Levels(rms: real, peak: real, clipped: real)

  datatype Kind = HackRF | RTL | OtherReceiver

  datatype Mode = Auto | Manual | Saved

  datatype AmpMode = AmpAuto | AmpOn | AmpOff

  datatype Sensitivity = Default | Weak | Balanced | Conservative | ByHand

  function Target(s: Sensitivity): real {
    match s
    case Weak => -28.0
    case Conservative => -40.0
    case _ => -34.0
  }

  predicate Quiet(s: Sensitivity, l: Levels) { l.rms < Target(s) - 5.0 && l.peak < -9.0 }

  // ---- HackRF ----

  datatype Gains = Gains(amp: bool, lna: int, vga: int, quiet: int, stable: int)

  // What the hardware accepts.
  predicate Valid(g: Gains) { 0 <= g.lna <= 40 && g.lna % 8 == 0 && 0 <= g.vga <= 62 && g.vga % 2 == 0 && 0 <= g.quiet <= 1 }

  predicate Overloaded(l: Levels) { l.clipped >= 0.05 || l.peak > -1.0 || l.rms > -12.0 }

  predicate QuietCapture(s: Sensitivity, l: Levels) { !Overloaded(l) && Quiet(s, l) }

  // One stage down: amplifier, then VGA, then LNA.
  function Lowered(auto: bool, g: Gains): Gains {
    if auto && g.amp then g.(amp := false)
    else if g.vga >= 4 then g.(vga := g.vga - 4)
    else if g.lna >= 8 then g.(lna := g.lna - 8)
    else g
  }

  // One stage up: amplifier, then LNA while it is not far above the VGA, then VGA.
  function Raised(auto: bool, g: Gains): Gains {
    if auto && !g.amp then g.(amp := true)
    else if g.lna < 40 && g.lna <= g.vga + 8 then g.(lna := g.lna + 8)
    else if g.vga < 62 then g.(vga := if g.vga + 4 < 62 then g.vga + 4 else 62)
    else g
  }

  function Adjusted(auto: bool, s: Sensitivity, g: Gains, l: Levels): Gains {
    if Overloaded(l) then Lowered(auto, g.(quiet := 0, stable := 0))
    else
      var counted := if Quiet(s, l) then g.(quiet := g.quiet + 1, stable := 0) else g.(quiet := 0, stable := g.stable + 1);
      if counted.quiet < 2 then counted else Raised(auto, counted.(quiet := 0))
  }

  function AdjustedAll(auto: bool, s: Sensitivity, g: Gains, ls: seq<Levels>): Gains {
    if |ls| == 0 then g else Adjusted(auto, s, AdjustedAll(auto, s, g, ls[..|ls| - 1]), ls[|ls| - 1])
  }

  /** Every run from settings the hardware accepts stays within them, and a fixed amplifier is never touched. */
  lemma {:induction false} RunStaysValid(auto: bool, s: Sensitivity, g: Gains, ls: seq<Levels>)
    requires Valid(g)
    ensures Valid(AdjustedAll(auto, s, g, ls))
    ensures !auto ==> AdjustedAll(auto, s, g, ls).amp == g.amp
  {
    if |ls| > 0 { RunStaysValid(auto, s, g, ls[..|ls| - 1]); }
  }

  // The steps left before nothing more can be taken off.
  function Above(auto: bool, g: Gains): int {
    (if auto && g.amp then 1 else 0) + g.vga / 4 + g.lna / 8
  }

  // The steps left before nothing more can be added.
  function Below(auto: bool, g: Gains): int {
    (if auto && !g.amp then 1 else 0) + (40 - g.lna) / 8 + (65 - g.vga) / 4
  }

  function AtLeastZero(n: int): int { if n < 0 then 0 else n }

  /** Sustained overload takes off exactly one step per capture, down to a fixed point: amplifier off where
      it is automatic, LNA 0, VGA below 4. */
  lemma {:induction false} OverloadConverges(auto: bool, s: Sensitivity, g: Gains, ls: seq<Levels>)
    requires Valid(g) && forall l | l in ls :: Overloaded(l)
    ensures var e := AdjustedAll(auto, s, g, ls);
            && Above(auto, e) == AtLeastZero(Above(auto, g) - |ls|)
            && (Above(auto, e) == 0 <==> !(auto && e.amp) && e.lna == 0 && e.vga < 4)
  {
    RunStaysValid(auto, s, g, ls);
    if |ls| > 0 {
      var before := AdjustedAll(auto, s, g, ls[..|ls| - 1]);
      OverloadConverges(auto, s, g, ls[..|ls| - 1]);
      RunStaysValid(auto, s, g, ls[..|ls| - 1]);
      assert ls[|ls| - 1] in ls;
      LoweredByOne(auto, before);
    }
  }

  lemma LoweredByOne(auto: bool, g: Gains)
    requires Valid(g)
    ensures Above(auto, Lowered(auto, g.(quiet := 0, stable := 0))) == AtLeastZero(Above(auto, g) - 1)
  {
  }

  lemma RaisedByOne(auto: bool, g: Gains)
    requires Valid(g)
    ensures Below(auto, Raised(auto, g)) == AtLeastZero(Below(auto, g) - 1)
  {
  }

  /** Sustained quiet adds exactly one step per two captures, up to amplifier on where it is automatic,
      LNA 40 and VGA 62. */
  lemma {:induction false} QuietConverges(auto: bool, s: Sensitivity, g: Gains, ls: seq<Levels>)
    requires Valid(g) && forall l | l in ls :: QuietCapture(s, l)
    ensures var e := AdjustedAll(auto, s, g, ls);
            && e.quiet == (g.quiet + |ls|) % 2
            && Below(auto, e) == AtLeastZero(Below(auto, g) - (g.quiet + |ls|) / 2)
            && (Below(auto, e) == 0 <==> !(auto && !e.amp) && e.lna == 40 && e.vga == 62)
  {
    hide Adjusted, Valid, Below, QuietCapture;
    RunStaysValid(auto, s, g, ls);
    NothingBelow(auto, AdjustedAll(auto, s, g, ls));
    BelowNotNegative(auto, g);
    if |ls| > 0 {
      var before := AdjustedAll(auto, s, g, ls[..|ls| - 1]);
      QuietConverges(auto, s, g, ls[..|ls| - 1]);
      RunStaysValid(auto, s, g, ls[..|ls| - 1]);
      assert ls[|ls| - 1] in ls;
      QuietCounts(auto, s, before, ls[|ls| - 1]);
      OneMoreOfPair(Below(auto, g), g.quiet + |ls| - 1);
    }
  }

  lemma NothingBelow(auto: bool, g: Gains)
    requires Valid(g)
    ensures Below(auto, g) == 0 <==> !(auto && !g.amp) && g.lna == 40 && g.vga == 62
  {
  }

  lemma BelowNotNegative(auto: bool, g: Gains)
    requires Valid(g)
    ensures Below(auto, g) >= 0 && 0 <= g.quiet <= 1
  {
  }

  lemma QuietCounts(auto: bool, s: Sensitivity, g: Gains, l: Levels)
    requires Valid(g) && QuietCapture(s, l)
    ensures Adjusted(auto, s, g, l).quiet == (g.quiet + 1) % 2
    ensures Below(auto, Adjusted(auto, s, g, l)) == AtLeastZero(Below(auto, g) - (g.quiet + 1) / 2)
  {
    hide Raised;
    RaisedByOne(auto, g.(quiet := 0, stable := 0));
    RaisedKeepsCount(auto, g.(quiet := 0, stable := 0));
    BelowNotNegative(auto, g);
  }

  lemma RaisedKeepsCount(auto: bool, g: Gains)
    ensures Raised(auto, g).quiet == g.quiet
  {
  }

  lemma OneMoreOfPair(b: int, n: int)
    requires n >= 0
    ensures AtLeastZero(AtLeastZero(b - n / 2) - (n % 2 + 1) / 2) == AtLeastZero(b - (n + 1) / 2)
    ensures (n % 2 + 1) % 2 == (n + 1) % 2
  {
  }

  /** A run adds gain at a capture only if that capture and the one before it were both quiet. */
  lemma RaiseNeedsTwoQuiet(auto: bool, s: Sensitivity, g: Gains, ls: seq<Levels>)
    requires Valid(g) && g.quiet == 0 && |ls| > 0
    requires Below(auto, AdjustedAll(auto, s, g, ls)) < Below(auto, AdjustedAll(auto, s, g, ls[..|ls| - 1]))
    ensures |ls| >= 2 && QuietCapture(s, ls[|ls| - 1]) && QuietCapture(s, ls[|ls| - 2])
  {
    RunStaysValid(auto, s, g, ls[..|ls| - 1]);
    QuietMeansCounted(auto, s, g, ls[..|ls| - 1]);
  }

  lemma QuietMeansCounted(auto: bool, s: Sensitivity, g: Gains, ls: seq<Levels>)
    requires Valid(g) && g.quiet == 0
    ensures AdjustedAll(auto, s, g, ls).quiet > 0 ==> |ls| > 0 && QuietCapture(s, ls[|ls| - 1])
  {
    hide Raised;
  }

  // ---- what one capture does, in decibels and stages ----

  // What counts as too loud, and as too faint, for the HackRF.
  predicate TooLoud(l: Levels) { !(l.clipped < 0.05 && l.peak <= -1.0 && l.rms <= -12.0) }

  predicate TooFaint(s: Sensitivity, l: Levels) {
    l.peak < -9.0 && (l.rms < -45.0 || (!s.Conservative? && l.rms < -39.0) || (s.Weak? && l.rms < -33.0))
  }

  /** One stage gives way, the amplifier before the VGA and the VGA before the LNA; none does only where
      nothing can be taken off. */
  predicate StageOff(auto: bool, g: Gains, after: Gains) {
    && (after.amp != g.amp ==> auto && g.amp)
    && (after.vga != g.vga ==> after.vga == g.vga - 4 >= 0 && !(auto && g.amp))
    && (after.lna != g.lna ==> after.lna == g.lna - 8 >= 0 && !(auto && g.amp) && g.vga < 4)
    && ((after.amp, after.lna, after.vga) == (g.amp, g.lna, g.vga) ==> !(auto && g.amp) && g.vga < 4 && g.lna < 8)
  }

  /** One stage is raised: the amplifier first, then the LNA while it is at most eight above the VGA, then the
      VGA; none is only where nothing can be added. */
  predicate StageOn(auto: bool, g: Gains, after: Gains) {
    && (after.amp != g.amp ==> auto && !g.amp)
    && (after.lna != g.lna ==> after.lna == g.lna + 8 < 48 && g.lna - g.vga <= 8 && (auto ==> g.amp))
    && (after.vga != g.vga ==> g.vga < 62 && (after.vga == g.vga + 4 <= 62 || (after.vga == 62 && g.vga > 58))
                                       && (auto ==> g.amp) && (g.lna >= 40 || g.lna - g.vga > 8))
    && ((after.amp, after.lna, after.vga) == (g.amp, g.lna, g.vga) ==>
                (auto ==> g.amp) && g.vga >= 62 && (g.lna >= 40 || g.lna - g.vga > 8))
  }

  /** What a HackRF capture does to the gains and to the two counters. */
  predicate HackLaw(auto: bool, s: Sensitivity, g: Gains, l: Levels, after: Gains) {
    if TooLoud(l) then StageOff(auto, g, after) && after.quiet == 0 && after.stable == 0
    else if !TooFaint(s, l) then after == Gains(g.amp, g.lna, g.vga, 0, g.stable + 1)
    else if g.quiet < 1 then after == Gains(g.amp, g.lna, g.vga, g.quiet + 1, 0)
    else StageOn(auto, g, after) && after.quiet == 0 && after.stable == 0
  }

  lemma AdjustedObeys(auto: bool, s: Sensitivity, g: Gains, l: Levels)
    ensures HackLaw(auto, s, g, l, Adjusted(auto, s, g, l))
  {
  }

  // The law leaves no choice.
  lemma OnlyAdjustedObeys(auto: bool, s: Sensitivity, g: Gains, l: Levels, after: Gains)
    ensures HackLaw(auto, s, g, l, after) <==> after == Adjusted(auto, s, g, l)
  {
  }

  /** In a run every capture obeys the law. */
  lemma RunObeys(auto: bool, s: Sensitivity, g: Gains, ls: seq<Levels>, k: nat)
    requires k < |ls|
    ensures HackLaw(auto, s, AdjustedAll(auto, s, g, ls[..k]), ls[k], AdjustedAll(auto, s, g, ls[..k + 1]))
  {
    hide HackLaw, Adjusted;
    assert ls[..k + 1][..k] == ls[..k];
    AdjustedObeys(auto, s, AdjustedAll(auto, s, g, ls[..k]), ls[k]);
  }

  /** And any trail of gains of which every step obeys it ends where the run does. */
  lemma {:induction false} OnlyRunObeys(auto: bool, s: Sensitivity, g: Gains, ls: seq<Levels>, trail: seq<Gains>)
    requires |trail| == |ls| + 1 && trail[0] == g
    requires forall k | 0 <= k < |ls| :: HackLaw(auto, s, trail[k], ls[k], trail[k + 1])
    ensures trail[|ls|] == AdjustedAll(auto, s, g, ls)
  {
    hide HackLaw, Adjusted;
    var n := |ls|;
    if n > 0 {
      OnlyRunObeys(auto, s, g, ls[..n - 1], trail[..n]);
      OnlyAdjustedObeys(auto, s, trail[n - 1], ls[n - 1], trail[n]);
    }
  }

  // ---- RTL-SDR ----

  const LADDER: seq<real> := [1.5, 9.0, 14.0, 19.0, 24.0, 29.0, 34.0, 42.0]

  datatype Rtl = Rtl(gain: real, quiet: int, stable: int)

  predicate RtlOverloaded(l: Levels) { l.clipped >= 0.5 || l.peak > -1.0 || (l.rms > -3.0 && l.clipped > 0.01) }

  // The rung the search from the top stops below, for a gain that need not be on the ladder.
  function RungDown(gain: real, index: nat): real
    requires index < |LADDER|
  {
    if index == 0 then LADDER[0]
    else if gain >= LADDER[index] - 0.01 then LADDER[index - 1]
    else RungDown(gain, index - 1)
  }

  function RungUp(gain: real, index: nat): real
    requires index <= |LADDER|
    decreases |LADDER| - index
  {
    if index == |LADDER| then gain
    else if gain < LADDER[index] - 0.01 then LADDER[index]
    else RungUp(gain, index + 1)
  }

  function RtlAdjusted(s: Sensitivity, g: Rtl, l: Levels): Rtl {
    if RtlOverloaded(l) then g.(gain := RungDown(g.gain, |LADDER| - 1))
    else
      var counted := if Quiet(s, l) then g.(quiet := g.quiet + 1, stable := 0) else g.(quiet := 0, stable := g.stable + 1);
      if counted.quiet < 2 then counted else counted.(quiet := 0, gain := RungUp(g.gain, 0))
  }

  function RtlAdjustedAll(s: Sensitivity, g: Rtl, ls: seq<Levels>): Rtl {
    if |ls| == 0 then g else RtlAdjusted(s, RtlAdjustedAll(s, g, ls[..|ls| - 1]), ls[|ls| - 1])
  }

  lemma {:induction false} RungDownFrom(rung: nat, index: nat)
    requires rung <= index < |LADDER|
    ensures RungDown(LADDER[rung], index) == LADDER[if rung == 0 then 0 else rung - 1]
  {
    if rung < index { RungDownFrom(rung, index - 1); }
  }

  lemma {:induction false} RungUpFrom(rung: nat, index: nat)
    requires rung < |LADDER| && index <= rung + 1
    ensures RungUp(LADDER[rung], index) == LADDER[if rung + 1 < |LADDER| then rung + 1 else rung]
    decreases |LADDER| - index
  {
    if index <= rung { RungUpFrom(rung, index + 1); }
  }

  // The rung a run ends on, counting in rungs only.
  function RungAfter(s: Sensitivity, rung: nat, quiet: int, ls: seq<Levels>): (r: (nat, int))
    requires rung < |LADDER| && 0 <= quiet <= 1
    ensures r.0 < |LADDER| && 0 <= r.1 <= 1
  {
    if |ls| == 0 then (rung, quiet)
    else
      var (before, q) := RungAfter(s, rung, quiet, ls[..|ls| - 1]);
      var l := ls[|ls| - 1];
      if RtlOverloaded(l) then (if before == 0 then 0 else before - 1, q)
      else if !Quiet(s, l) then (before, 0)
      else if q == 0 then (before, 1)
      else (if before + 1 < |LADDER| then before + 1 else before, 0)
  }

  /** From any rung, every run stays on the ladder and moves by one rung at a time: down at each overload,
      up at the second of two quiet captures. */
  lemma {:induction false} RtlStaysOnLadder(s: Sensitivity, rung: nat, g: Rtl, ls: seq<Levels>)
    requires rung < |LADDER| && g.gain == LADDER[rung] && 0 <= g.quiet <= 1
    ensures RtlAdjustedAll(s, g, ls).gain == LADDER[RungAfter(s, rung, g.quiet, ls).0]
    ensures RtlAdjustedAll(s, g, ls).quiet == RungAfter(s, rung, g.quiet, ls).1
  {
    hide LADDER, RungDown, RungUp;
    if |ls| > 0 {
      RtlStaysOnLadder(s, rung, g, ls[..|ls| - 1]);
      var before := RungAfter(s, rung, g.quiet, ls[..|ls| - 1]).0;
      RungDownFrom(before, |LADDER| - 1);
      RungUpFrom(before, 0);
    }
  }

  // An overload, and a quiet capture, on either receiver.
  const LOUD := Levels(0.0, 0.0, 100.0)
  const FAINT := Levels(-100.0, -100.0, 0.0)

  /** Unlike on the HackRF, an overload between two quiet captures does not make the RTL controller start
      counting anew: it gives back at once the rung it took off. */
  lemma RtlForgetsOverload(s: Sensitivity, rung: nat)
    requires 0 < rung < |LADDER|
    ensures RtlAdjustedAll(s, Rtl(LADDER[rung], 0, 0), [FAINT, LOUD, FAINT]).gain == LADDER[rung]
    ensures RtlAdjustedAll(s, Rtl(LADDER[rung], 0, 0), [FAINT, LOUD]).gain == LADDER[rung - 1]
  {
    var ls := [FAINT, LOUD, FAINT];
    assert ls[..2] == [FAINT, LOUD] && [FAINT, LOUD][..1] == [FAINT] && [FAINT][..0] == [];
    assert RungAfter(s, rung, 0, [FAINT]) == (rung, 1);
    assert RungAfter(s, rung, 0, [FAINT, LOUD]) == (rung - 1, 1);
    assert RungAfter(s, rung, 0, ls) == (rung, 0);
    RtlStaysOnLadder(s, rung, Rtl(LADDER[rung], 0, 0), ls);
    RtlStaysOnLadder(s, rung, Rtl(LADDER[rung], 0, 0), [FAINT, LOUD]);
  }

  /** Exactly when the RTL gain goes up: the capture is quiet, and so was the last one before it that was not
      an overload, uncounted as yet. */
  lemma {:induction false} RtlRaiseExactly(s: Sensitivity, rung: nat, g: Rtl, ls: seq<Levels>, l: Levels)
    requires rung < |LADDER| && g.gain == LADDER[rung] && g.quiet == 0
    ensures RtlAdjustedAll(s, g, ls + [l]).gain > RtlAdjustedAll(s, g, ls).gain
       <==> !RtlOverloaded(l) && Quiet(s, l) && RungAfter(s, rung, 0, ls).0 + 1 < |LADDER| && OddQuiet(s, ls)
  {
    hide RtlAdjustedAll;
    assert (ls + [l])[..|ls|] == ls;
    RtlStaysOnLadder(s, rung, g, ls);
    RtlStaysOnLadder(s, rung, g, ls + [l]);
    CountIsOddQuiet(s, rung, ls);
    LadderRises();
  }

  // The captures that were no overload end in an odd number of quiet ones.
  predicate OddQuiet(s: Sensitivity, ls: seq<Levels>) {
    if |ls| == 0 then false
    else
      var before := OddQuiet(s, ls[..|ls| - 1]);
      if RtlOverloaded(ls[|ls| - 1]) then before else Quiet(s, ls[|ls| - 1]) && !before
  }

  lemma {:induction false} CountIsOddQuiet(s: Sensitivity, rung: nat, ls: seq<Levels>)
    requires rung < |LADDER|
    ensures RungAfter(s, rung, 0, ls).1 == if OddQuiet(s, ls) then 1 else 0
  {
    if |ls| > 0 { CountIsOddQuiet(s, rung, ls[..|ls| - 1]); }
  }

  lemma LadderRises()
    ensures forall i, j | 0 <= i < j < |LADDER| :: LADDER[i] < LADDER[j]
  {
  }

  // The search finds the highest rung that the gain reaches, and goes to the one below.
  lemma {:induction false} RungDownIs(gain: real, index: nat, rung: nat)
    requires rung <= index < |LADDER| && (rung > 0 ==> gain >= LADDER[rung] - 0.01)
    requires forall i | rung < i <= index :: gain < LADDER[i] - 0.01
    ensures RungDown(gain, index) == if rung == 0 then LADDER[0] else LADDER[rung - 1]
  {
    if rung < index { RungDownIs(gain, index - 1, rung); }
  }

  lemma {:induction false} RungUpIs(gain: real, index: nat, rung: nat)
    requires index <= rung <= |LADDER| && (rung < |LADDER| ==> gain < LADDER[rung] - 0.01)
    requires forall i | index <= i < rung :: gain >= LADDER[i] - 0.01
    ensures RungUp(gain, index) == if rung < |LADDER| then LADDER[rung] else gain
    decreases |LADDER| - index
  {
    if index < rung { RungUpIs(gain, index + 1, rung); }
  }

  // How many rungs a gain reaches, to within a hundredth of a decibel.
  ghost predicate Reaches(gain: real, rungs: nat) {
    && rungs <= |LADDER|
    && (rungs > 0 ==> LADDER[rungs - 1] - gain <= 0.01)
    && (rungs < |LADDER| ==> LADDER[rungs] - gain > 0.01)
  }

  /** What an RTL capture does: with any gain, from a file or from the ladder, an overload goes one rung below
      the highest one reached, and the second quiet capture to the lowest one not reached. */
  ghost predicate RtlLaw(s: Sensitivity, g: Rtl, l: Levels, after: Rtl) {
    var loud := !(l.clipped < 0.5 && l.peak <= -1.0 && !(l.rms > -3.0 && l.clipped > 0.01));
    && (loud ==> after.quiet == g.quiet && after.stable == g.stable)
    && (loud ==> forall n: nat | Reaches(g.gain, n) :: after.gain == LADDER[if n < 2 then 0 else n - 2])
    && (!loud && !TooFaint(s, l) ==> after == Rtl(g.gain, 0, g.stable + 1))
    && (!loud && TooFaint(s, l) && g.quiet < 1 ==> after == Rtl(g.gain, g.quiet + 1, 0))
    && (!loud && TooFaint(s, l) && g.quiet >= 1 ==> after.quiet == 0 && after.stable == 0)
    && (!loud && TooFaint(s, l) && g.quiet >= 1 ==>
                forall n: nat | Reaches(g.gain, n) :: after.gain == if n < |LADDER| then LADDER[n] else g.gain)
  }

  lemma RtlObeys(s: Sensitivity, g: Rtl, l: Levels)
    ensures RtlLaw(s, g, l, RtlAdjusted(s, g, l))
  {
    hide RungDown, RungUp;
    forall n: nat | Reaches(g.gain, n)
      ensures RungDown(g.gain, |LADDER| - 1) == LADDER[if n < 2 then 0 else n - 2]
      ensures RungUp(g.gain, 0) == if n < |LADDER| then LADDER[n] else g.gain
    {
      LadderRises();
      RungDownIs(g.gain, |LADDER| - 1, if n == 0 then 0 else n - 1);
      RungUpIs(g.gain, 0, n);
    }
  }

  // ---- the controller ----

  datatype Calibration = Calibration(lna: int, vga: int, amp: bool)

  datatype CaptureSpec = CaptureSpec(autoGain: bool, gainDB: real, lna: int, vga: int, amp: bool)

  class AdaptiveTuning {
    const kind: Kind
    const mode: Mode
    const ampMode: AmpMode
    const sensitivity: Sensitivity
    const gainDB: real
    var rtlGainDB: real
    var lnaGainDB: int
    var vgaGainDB: int
    var ampEnabled: bool
    var quietCaptures: int
    var stableCaptures: int

    function Hack(): Gains
      reads this
    {
      Gains(ampEnabled, lnaGainDB, vgaGainDB, quietCaptures, stableCaptures)
    }

    function RtlState(): Rtl
      reads this
    {
      Rtl(rtlGainDB, quietCaptures, stableCaptures)
    }

    /** newMapperAdaptiveTuning: the automatic HackRF controller starts from settings the hardware accepts
        exactly when the saved calibration, where it is used, holds such settings; the RTL controller
        starts at the bottom of the ladder unless a saved gain is asked for. */
    constructor (kind: Kind, mode: Mode, ampMode: AmpMode, sensitivity: Sensitivity, gainDB: real, lna: int, vga: int,
                 calibration: Option<Calibration>)
      ensures this.kind == kind && this.mode == mode && this.ampMode == ampMode && this.sensitivity == sensitivity
      ensures kind.HackRF? && mode.Auto? ==>
                var c := if calibration.Some? then calibration.value else Calibration(0, 0, false);
                (Valid(Hack()) <==> (c.lna <= 0 || (c.lna <= 40 && c.lna % 8 == 0)) && (c.vga <= 0 || (c.vga <= 62 && c.vga % 2 == 0)))
      ensures kind.HackRF? && !mode.Manual? ==>
                && lnaGainDB == (if calibration.Some? && calibration.value.lna > 0 then calibration.value.lna else 16)
                && vgaGainDB == (if calibration.Some? && calibration.value.vga > 0 then calibration.value.vga else 16)
      ensures !kind.HackRF? || mode.Manual? ==> lnaGainDB == lna && vgaGainDB == vga
      ensures this.gainDB == gainDB && quietCaptures == 0 && stableCaptures == 0
      ensures ampEnabled <==> kind.HackRF? && (ampMode.AmpOn? || (ampMode.AmpAuto? && mode.Saved? && calibration.Some? && calibration.value.amp))
      ensures rtlGainDB == if kind.RTL? && mode.Saved? && calibration.Some? && calibration.value.vga > 0
                           then calibration.value.vga as real else 1.5
    {
      this.kind, this.mode, this.ampMode, this.sensitivity, this.gainDB := kind, mode, ampMode, sensitivity, gainDB;
      var l, v, amp, rtl := lna, vga, false, 1.5;
      if kind.HackRF? {
        if !mode.Manual? {
          l, v := 16, 16;
          if calibration.Some? {
            if calibration.value.lna > 0 { l := calibration.value.lna; }
            if calibration.value.vga > 0 { v := calibration.value.vga; }
          }
        }
        if ampMode.AmpOn? {
          amp := true;
        } else if ampMode.AmpOff? {
          amp := false;
        } else if mode.Saved? && calibration.Some? {
          amp := calibration.value.amp;
        }
      } else if kind.RTL? && mode.Saved? && calibration.Some? && calibration.value.vga > 0 {
        rtl := calibration.value.vga as real;
      }
      rtlGainDB, lnaGainDB, vgaGainDB, ampEnabled, quietCaptures, stableCaptures := rtl, l, v, amp, 0, 0;
    }

    /** apply: what the controller changes in a capture's settings. */
    method Apply(spec: CaptureSpec) returns (r: CaptureSpec)
      ensures kind.HackRF? && mode.Auto? ==> r == spec.(lna := lnaGainDB, vga := vgaGainDB, amp := AmpAsked())
      ensures kind.RTL? && mode.Auto? ==> r == spec.(autoGain := false, gainDB := rtlGainDB)
      ensures kind.OtherReceiver? && mode.Auto? ==> r == spec.(autoGain := true)
      ensures mode.Manual? ==> r == spec.(autoGain := false, gainDB := gainDB, lna := lnaGainDB, vga := vgaGainDB,
                                          amp := if kind.HackRF? then AmpAsked() else spec.amp)
      ensures kind.RTL? && mode.Saved? ==> r == spec.(autoGain := false, gainDB := rtlGainDB)
      ensures kind.HackRF? && mode.Saved? ==> r == spec.(amp := AmpAsked())
      ensures kind.OtherReceiver? && mode.Saved? ==> r == spec
    {
      r := spec;
      match mode {
        case Auto =>
          if kind.HackRF? {
            r := r.(lna := lnaGainDB, vga := vgaGainDB, amp := ampEnabled);
          } else if kind.RTL? {
            r := r.(autoGain := false, gainDB := rtlGainDB);
          } else {
            r := r.(autoGain := true);
          }
        case Manual =>
          r := r.(autoGain := false, gainDB := gainDB, lna := lnaGainDB, vga := vgaGainDB);
        case Saved =>
          if kind.RTL? { r := r.(autoGain := false, gainDB := rtlGainDB); }
      }
      if kind.HackRF? {
        match ampMode {
          case AmpOn => r := r.(amp := true);
          case AmpOff => r := r.(amp := false);
          case AmpAuto => r := r.(amp := ampEnabled);
        }
      }
    }

    function AmpAsked(): bool
      reads this
    {
      if ampMode.AmpOn? then true else if ampMode.AmpOff? then false else ampEnabled
    }

    method AdjustRTL(l: Levels)
      modifies this
      ensures RtlState() == RtlAdjusted(sensitivity, old(RtlState()), l)
      ensures RtlLaw(sensitivity, old(RtlState()), l, RtlState())
      ensures lnaGainDB == old(lnaGainDB) && vgaGainDB == old(vgaGainDB) && ampEnabled == old(ampEnabled)
    {
      RtlObeys(sensitivity, RtlState(), l);
      if RtlOverloaded(l) {
        var index := |LADDER| - 1;
        while index > 0
          invariant 0 <= index < |LADDER|
          invariant RungDown(rtlGainDB, index) == RungDown(rtlGainDB, |LADDER| - 1)
        {
          if rtlGainDB >= LADDER[index] - 0.01 {
            rtlGainDB := LADDER[index - 1];
            return;
          }
          index := index - 1;
        }
        rtlGainDB := LADDER[0];
        return;
      }
      if Quiet(sensitivity, l) {
        quietCaptures, stableCaptures := quietCaptures + 1, 0;
      } else {
        quietCaptures, stableCaptures := 0, stableCaptures + 1;
      }
      if quietCaptures < 2 { return; }
      quietCaptures := 0;
      for index := 0 to |LADDER|
        invariant RungUp(rtlGainDB, index) == RungUp(rtlGainDB, 0)
      {
        if rtlGainDB < LADDER[index] - 0.01 {
          rtlGainDB := LADDER[index];
          return;
        }
      }
    }

    method AdjustHackRF(l: Levels)
      modifies this
      ensures Hack() == Adjusted(ampMode.AmpAuto?, sensitivity, old(Hack()), l)
      ensures HackLaw(ampMode.AmpAuto?, sensitivity, old(Hack()), l, Hack())
      ensures rtlGainDB == old(rtlGainDB)
    {
      AdjustedObeys(ampMode.AmpAuto?, sensitivity, Hack(), l);
      if Overloaded(l) {
        quietCaptures, stableCaptures := 0, 0;
        if ampMode.AmpAuto? && ampEnabled { ampEnabled := false; return; }
        if vgaGainDB >= 4 { vgaGainDB := vgaGainDB - 4; return; }
        if lnaGainDB >= 8 { lnaGainDB := lnaGainDB - 8; }
        return;
      }
      if Quiet(sensitivity, l) {
        quietCaptures, stableCaptures := quietCaptures + 1, 0;
      } else {
        quietCaptures, stableCaptures := 0, stableCaptures + 1;
      }
      if quietCaptures < 2 { return; }
      quietCaptures := 0;
      if ampMode.AmpAuto? && !ampEnabled { ampEnabled := true; return; }
      if lnaGainDB < 40 && lnaGainDB <= vgaGainDB + 8 { lnaGainDB := lnaGainDB + 8; return; }
      if vgaGainDB < 62 { vgaGainDB := if vgaGainDB + 4 < 62 then vgaGainDB + 4 else 62; }
    }

    /** observe: only an automatic HackRF or RTL controller changes anything. */
    method Observe(l: Levels)
      modifies this
      ensures mode.Auto? && kind.HackRF? ==> Hack() == Adjusted(ampMode.AmpAuto?, sensitivity, old(Hack()), l)
      ensures mode.Auto? && kind.HackRF? ==> HackLaw(ampMode.AmpAuto?, sensitivity, old(Hack()), l, Hack())
      ensures mode.Auto? && kind.HackRF? ==> rtlGainDB == old(rtlGainDB)
      ensures mode.Auto? && kind.RTL? ==> RtlState() == RtlAdjusted(sensitivity, old(RtlState()), l)
      ensures mode.Auto? && kind.RTL? ==> RtlLaw(sensitivity, old(RtlState()), l, RtlState())
      ensures !mode.Auto? || kind.OtherReceiver? ==> Hack() == old(Hack()) && rtlGainDB == old(rtlGainDB)
    {
      if mode.Auto? && kind.HackRF? {
        AdjustHackRF(l);
      } else if mode.Auto? && kind.RTL? {
        AdjustRTL(l);
      }
    }

    /** A run of captures on an automatic HackRF: the gains of every capture are ones the hardware accepts. */
    method ObserveAll(ls: seq<Levels>)
      requires mode.Auto? && kind.HackRF? && Valid(Hack())
      modifies this
      ensures Hack() == AdjustedAll(ampMode.AmpAuto?, sensitivity, old(Hack()), ls) && Valid(Hack())
    {
      for k := 0 to |ls|
        invariant Hack() == AdjustedAll(ampMode.AmpAuto?, sensitivity, old(Hack()), ls[..k]) && Valid(Hack())
      {
        assert ls[..k + 1][..k] == ls[..k];
        RunStaysValid(ampMode.AmpAuto?, sensitivity, old(Hack()), ls[..k + 1]);
        Observe(ls[k]);
      }
      assert ls[..|ls|] == ls;
    }
  }
}
