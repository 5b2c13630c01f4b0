/** How server/internal/app/live_survey.go groups a Mapper job's targets into captures, and where it
    centres the receiver for each.  Frequencies are reals, sample rates integers. */
module MapperPlan {
  import opened Wrappers
  import opened GoMath

  // wideband: the target's decoder needs 2.4 Msps (dump1090).
  datatype Target = Target(id: int, frequencyHz: real, bandwidthHz: real, wideband: bool)

  // native: driven by its own tool, not through SoapySDR.
  datatype Device = Device(hackRF: bool, rtlSDR: bool, native: bool, sampleRateLimit: Option<int>)

  // limit: the channel limit after defaults and clamping to 1..1024.
  datatype Job = Job(device: Device, requestedRate: int, limit: nat)

  // A validated job asks for no rate (0) or a supported one.
  ghost predicate JobValid(job: Job) { job.requestedRate >= 0 && 1 <= job.limit <= 1024 }

  datatype Batch = Batch(targets: seq<Target>, sampleRate: int)

  // ---- sample rates ----

  predicate NativeHackRF(d: Device) { d.hackRF && d.native }

  function LiveSampleRate(d: Device, t: Target): int {
    if NativeHackRF(d) then 10000000 else if t.wideband then 2400000 else 1000000
  }

  function MaximumRate(d: Device): int {
    var most := if d.sampleRateLimit.Some? && d.sampleRateLimit.value > 0 then d.sampleRateLimit.value else 20000000;
    var cap := if d.rtlSDR && d.native then 3200000 else most;
    if d.sampleRateLimit.Some? && d.sampleRateLimit.value < cap then d.sampleRateLimit.value else cap
  }

  // compatibleUserSampleRate
  function UserRate(d: Device, requested: int, automatic: int): int {
    if requested == 0 || requested > MaximumRate(d) || (NativeHackRF(d) && requested < 2000000) then automatic else requested
  }

  function AutomaticRate(d: Device, ts: seq<Target>): (r: int)
    ensures r >= 1000000
  {
    if |ts| == 0 then 1000000
    else
      var before := AutomaticRate(d, ts[..|ts| - 1]);
      var candidate := LiveSampleRate(d, ts[|ts| - 1]);
      if candidate > before then candidate else before
  }

  function BatchRate(job: Job, ts: seq<Target>): (r: int)
    ensures JobValid(job) ==> r > 0
  {
    UserRate(job.device, job.requestedRate, AutomaticRate(job.device, ts))
  }

  /** The rate does not depend on which targets share a capture. */
  predicate RatePinned(job: Job) {
    NativeHackRF(job.device) || (job.requestedRate != 0 && job.requestedRate <= MaximumRate(job.device))
  }

  lemma {:induction false} AutomaticRateValues(d: Device, ts: seq<Target>)
    ensures NativeHackRF(d) && |ts| > 0 ==> AutomaticRate(d, ts) == 10000000
    ensures !NativeHackRF(d) ==> AutomaticRate(d, ts) == if exists t :: t in ts && t.wideband then 2400000 else 1000000
  {
    if |ts| > 0 {
      AutomaticRateValues(d, ts[..|ts| - 1]);
      assert ts == ts[..|ts| - 1] + [ts[|ts| - 1]];
    }
  }

  lemma PinnedRateIsOne(job: Job, a: seq<Target>, b: seq<Target>)
    requires RatePinned(job) && |a| > 0 && |b| > 0
    ensures BatchRate(job, a) == BatchRate(job, b)
  {
    AutomaticRateValues(job.device, a);
    AutomaticRateValues(job.device, b);
  }

  // The rate asked for is one the device takes.
  predicate Takes(d: Device, asked: int) {
    && asked != 0 && (d.sampleRateLimit.Some? ==> asked <= d.sampleRateLimit.value)
    && (d.rtlSDR && d.native ==> asked <= 3200000)
    && (d.sampleRateLimit.None? && !(d.rtlSDR && d.native) ==> asked <= 20000000)
    && (d.hackRF && d.native ==> asked >= 2000000)
  }

  /** The rate of a capture: the one asked for, where the device takes it; else ten million for a HackRF driven by
      its own tool, 2.4 million where a target is decoded by dump1090, and a million for all others. */
  predicate RateLaw(job: Job, ts: seq<Target>, rate: int) {
    rate == if Takes(job.device, job.requestedRate) then job.requestedRate
            else if |ts| == 0 then 1000000
            else if job.device.hackRF && job.device.native then 10000000
            else if exists t :: t in ts && t.wideband then 2400000
            else 1000000
  }

  lemma RateExactly(job: Job, ts: seq<Target>, rate: int)
    ensures RateLaw(job, ts, rate) <==> rate == BatchRate(job, ts)
  {
    AutomaticRateValues(job.device, ts);
  }

  method BatchSampleRate(job: Job, ts: seq<Target>) returns (rate: int)
    ensures rate == BatchRate(job, ts) && RateLaw(job, ts, rate)
  {
    RateExactly(job, ts, BatchRate(job, ts));
    var automatic := 1000000;
    for k := 0 to |ts|
      invariant automatic == AutomaticRate(job.device, ts[..k])
    {
      assert ts[..k + 1][..k] == ts[..k];
      var candidate := LiveSampleRate(job.device, ts[k]);
      if candidate > automatic { automatic := candidate; }
    }
    assert ts[..|ts|] == ts;
    rate := UserRate(job.device, job.requestedRate, automatic);
  }

  // ---- the window ----

  // The span a target needs: noise is sampled two channel widths away on both sides.
  function Low(t: Target): real { t.frequencyHz - Max(t.bandwidthHz, 12500.0) * 2.0 }
  function High(t: Target): real { t.frequencyHz + Max(t.bandwidthHz, 12500.0) * 2.0 }

  // All spans together are at most w wide.
  ghost predicate Within(ts: seq<Target>, w: real) {
    forall i, j | 0 <= i < |ts| && 0 <= j < |ts| :: High(ts[i]) - Low(ts[j]) <= w
  }

  ghost predicate Fits(ts: seq<Target>, rate: int) {
    |ts| > 0 && rate > 0 && Within(ts, rate as real * 0.84)
  }

  // The extremes of the spans.
  function Lowest(ts: seq<Target>): real
    requires |ts| > 0
  {
    if |ts| == 1 then Low(ts[0]) else Min(Lowest(ts[..|ts| - 1]), Low(ts[|ts| - 1]))
  }

  function Highest(ts: seq<Target>): real
    requires |ts| > 0
  {
    if |ts| == 1 then High(ts[0]) else Max(Highest(ts[..|ts| - 1]), High(ts[|ts| - 1]))
  }

  lemma {:induction false} ExtremesBound(ts: seq<Target>)
    requires |ts| > 0
    ensures forall t | t in ts :: Lowest(ts) <= Low(t) && High(t) <= Highest(ts)
    ensures exists t :: t in ts && Lowest(ts) == Low(t)
    ensures exists t :: t in ts && Highest(ts) == High(t)
  {
    hide Low, High;
    if |ts| == 1 {
      assert ts[0] in ts;
    } else {
      var init, last := ts[..|ts| - 1], ts[|ts| - 1];
      ExtremesBound(init);
      assert ts == init + [last];
      assert last in ts && forall t | t in init :: t in ts;
    }
  }

  method Extremes(ts: seq<Target>) returns (minimum: real, maximum: real)
    requires |ts| > 0
    ensures minimum == Lowest(ts) && maximum == Highest(ts)
  {
    hide Low, High, Min, Max;
    minimum, maximum := Low(ts[0]), High(ts[0]);
    for k := 1 to |ts|
      invariant minimum == Lowest(ts[..k]) && maximum == Highest(ts[..k])
    {
      assert ts[..k + 1][..k] == ts[..k];
      minimum, maximum := Min(minimum, Low(ts[k])), Max(maximum, High(ts[k]));
    }
    assert ts[..|ts|] == ts;
  }

  // The spans fit when their extremes do.
  lemma WithinExtremes(ts: seq<Target>, w: real)
    requires |ts| > 0
    ensures Within(ts, w) <==> Highest(ts) - Lowest(ts) <= w
  {
    hide Low, High, Lowest, Highest;
    ExtremesBound(ts);
    if Within(ts, w) {
      var top, bottom := Highest(ts), Lowest(ts);
      var h :| h in ts && top == High(h);
      var l :| l in ts && bottom == Low(l);
      var i :| 0 <= i < |ts| && ts[i] == h;
      var j :| 0 <= j < |ts| && ts[j] == l;
      assert High(ts[i]) - Low(ts[j]) <= w;
    }
    if Highest(ts) - Lowest(ts) <= w {
      forall i, j | 0 <= i < |ts| && 0 <= j < |ts| ensures High(ts[i]) - Low(ts[j]) <= w {
        assert ts[i] in ts && ts[j] in ts;
      }
    }
  }

  // A target counts as no narrower than 12.5 kHz.
  function Width(t: Target): real { if t.bandwidthHz < 12500.0 then 12500.0 else t.bandwidthHz }

  /** Every two targets, with two widths on the far side of each, fit into 84 percent of the rate. */
  ghost predicate Window(ts: seq<Target>, rate: int) {
    && |ts| != 0 && rate >= 1
    && forall i, j | 0 <= i < |ts| && 0 <= j < |ts| ::
         ts[i].frequencyHz - ts[j].frequencyHz + 2.0 * (Width(ts[i]) + Width(ts[j])) <= 84.0 * rate as real / 100.0
  }

  lemma WindowExactly(ts: seq<Target>, rate: int)
    ensures Window(ts, rate) <==> Fits(ts, rate)
  {
    forall i, j | 0 <= i < |ts| && 0 <= j < |ts|
      ensures High(ts[i]) - Low(ts[j]) == ts[i].frequencyHz - ts[j].frequencyHz + 2.0 * (Width(ts[i]) + Width(ts[j]))
    {
    }
    hide High, Low, Width;
  }

  // mapperTargetsFitSampleWindow
  method FitsWindow(ts: seq<Target>, rate: int) returns (fits: bool)
    ensures (fits <==> Fits(ts, rate)) && (fits <==> Window(ts, rate))
  {
    WindowExactly(ts, rate);
    hide Window, Within, Lowest, Highest;
    if |ts| == 0 || rate <= 0 { return false; }
    WithinExtremes(ts, rate as real * 0.84);
    var minimum, maximum := Extremes(ts);
    fits := maximum - minimum <= rate as real * 0.84;
  }

  // ---- grouping ----

  // A group the planner may capture together.
  ghost predicate Allowed(job: Job, g: seq<Target>) {
    |g| == 1 || (1 < |g| <= job.limit && Fits(g, BatchRate(job, g)))
  }

  /** How far the inner loop extends a group that already has count members. */
  ghost function Extent(job: Job, ordered: seq<Target>, count: nat): (c: nat)
    requires 1 <= count <= |ordered|
    ensures count <= c <= |ordered|
    ensures Allowed(job, ordered[..count]) ==> Allowed(job, ordered[..c])
    decreases |ordered| - count
  {
    if count < |ordered| && count < job.limit && Fits(ordered[..count + 1], BatchRate(job, ordered[..count + 1]))
    then Extent(job, ordered, count + 1) else count
  }

  ghost function Greedy(job: Job, ordered: seq<Target>): (groups: seq<seq<Target>>)
    ensures forall g | g in groups :: Allowed(job, g)
    decreases |ordered|
  {
    if |ordered| == 0 then []
    else
      var c := Extent(job, ordered, 1);
      [ordered[..c]] + Greedy(job, ordered[c..])
  }

  function Concat(groups: seq<seq<Target>>): seq<Target> {
    if |groups| == 0 then [] else groups[0] + Concat(groups[1..])
  }

  lemma {:induction false} GreedyCovers(job: Job, ordered: seq<Target>)
    ensures Concat(Greedy(job, ordered)) == ordered
    decreases |ordered|
  {
    if |ordered| > 0 { GreedyCovers(job, ordered[Extent(job, ordered, 1)..]); }
  }

  /** A division of the targets into consecutive groups that may be captured together. */
  ghost predicate Division(job: Job, ordered: seq<Target>, groups: seq<seq<Target>>) {
    Concat(groups) == ordered && forall g | g in groups :: Allowed(job, g)
  }

  // Every run inside an allowed run is allowed.
  ghost predicate Hereditary(job: Job, o: seq<Target>) {
    forall i, a, b, j | 0 <= i <= a < b <= j <= |o| :: Allowed(job, o[i..j]) ==> Allowed(job, o[a..b])
  }

  // Every target is wideband, or none is.
  ghost predicate Uniform(ts: seq<Target>) {
    forall s, t | s in ts && t in ts :: s.wideband == t.wideband
  }

  // The width from which a wideband target alone spans more than the window of 2.4 Msps.
  const LONE_WIDTH: real := 504000.0

  ghost predicate WideAlone(ts: seq<Target>) {
    forall t | t in ts && t.wideband :: t.bandwidthHz > LONE_WIDTH
  }

  /** What every list a job makes is like (MapperTargets): wideband targets are the whole list, or too wide
      to share a capture. */
  ghost predicate Plannable(ts: seq<Target>) { Uniform(ts) || WideAlone(ts) }

  // The cases in which the rate cannot make room for a longer group than for a shorter one.
  ghost predicate Steady(job: Job, ts: seq<Target>) {
    RatePinned(job) || job.limit <= 2 || Plannable(ts)
  }

  // In an unpinned plannable list, a group that fits has the rate of every group inside it.
  lemma PlannableRate(job: Job, o: seq<Target>, i: nat, a: nat, b: nat, j: nat)
    requires JobValid(job) && !RatePinned(job) && Plannable(o) && i <= a < b <= j <= |o|
    requires Fits(o[i..j], BatchRate(job, o[i..j]))
    ensures BatchRate(job, o[a..b]) == BatchRate(job, o[i..j])
  {
    hide Low, High;
    var g, h := o[i..j], o[a..b];
    AutomaticRateValues(job.device, g);
    AutomaticRateValues(job.device, h);
    forall t | t in h ensures t in g {
      var k :| 0 <= k < |h| && h[k] == t;
      assert g[a - i + k] == t;
    }
    assert forall t | t in g :: t in o;
    if Uniform(o) {
      assert h[0] in h;
    } else if exists t :: t in g && t.wideband {
      NarrowInWindow(g);
    }
  }

  lemma NarrowInWindow(ts: seq<Target>)
    requires Within(ts, 2400000.0 * 0.84)
    ensures forall t | t in ts :: t.bandwidthHz <= LONE_WIDTH
  {
    forall t | t in ts ensures t.bandwidthHz <= LONE_WIDTH {
      var k :| 0 <= k < |ts| && ts[k] == t;
      assert High(ts[k]) - Low(ts[k]) <= 2400000.0 * 0.84;
    }
  }

  lemma SteadyRate(job: Job, o: seq<Target>, i: nat, a: nat, b: nat, j: nat)
    requires JobValid(job) && (RatePinned(job) || Plannable(o)) && i <= a < b <= j <= |o|
    requires Fits(o[i..j], BatchRate(job, o[i..j]))
    ensures BatchRate(job, o[a..b]) == BatchRate(job, o[i..j])
  {
    if RatePinned(job) { PinnedRateIsOne(job, o[i..j], o[a..b]); } else { PlannableRate(job, o, i, a, b, j); }
  }

  lemma SteadyIsHereditary(job: Job, o: seq<Target>)
    requires JobValid(job) && Steady(job, o)
    ensures Hereditary(job, o)
  {
    hide BatchRate, Plannable, RatePinned, Low, High;
    forall i, a, b, j | 0 <= i <= a < b <= j <= |o| && Allowed(job, o[i..j])
      ensures Allowed(job, o[a..b])
    {
      if b - a > 1 {
        if job.limit <= 2 {
          assert o[a..b] == o[i..j];
        } else {
          SteadyRate(job, o, i, a, b, j);
          forall k | 0 <= k < b - a ensures o[a..b][k] == o[i..j][a - i + k] {}
        }
      }
    }
  }

  lemma InnerAllowed(job: Job, o: seq<Target>, j: nat, i: nat, e: nat)
    requires Hereditary(job, o) && j <= i < e <= |o| && Allowed(job, o[j..e])
    ensures Allowed(job, o[i..e])
  {
  }

  // The inner loop does not stop before the end of an allowed run.
  lemma {:induction false} ExtentReaches(job: Job, o: seq<Target>, i: nat, e: nat, count: nat)
    requires Hereditary(job, o) && i < e <= |o| && Allowed(job, o[i..e])
    requires 1 <= count <= e - i
    ensures Extent(job, o[i..], count) >= e - i
    decreases e - i - count
  {
    if count < e - i {
      assert o[i..][..count + 1] == o[i..i + count + 1];
      assert Allowed(job, o[i..i + count + 1]);
      ExtentReaches(job, o, i, e, count + 1);
    }
  }

  // From any point at or after the start of a division, greedy needs no more groups than the division.
  lemma {:induction false} GreedyStaysAhead(job: Job, o: seq<Target>, j: nat, i: nat, groups: seq<seq<Target>>)
    requires Hereditary(job, o) && j <= i <= |o| && Division(job, o[j..], groups)
    ensures |Greedy(job, o[i..])| <= |groups|
    decreases |groups|
  {
    hide Allowed, Fits, BatchRate, Extent, Hereditary;
    if i < |o| {
      var g, rest := groups[0], groups[1..];
      var e := j + |g|;
      assert o[j..] == g + Concat(rest);
      assert o[j..e] == g && o[e..] == Concat(rest);
      assert forall h | h in rest :: h in groups;
      if i >= e {
        GreedyStaysAhead(job, o, e, i, rest);
      } else {
        assert Allowed(job, o[j..e]);
        InnerAllowed(job, o, j, i, e);
        ExtentReaches(job, o, i, e, 1);
        var c := Extent(job, o[i..], 1);
        assert o[i..][c..] == o[i + c..];
        GreedyStaysAhead(job, o, e, i + c, rest);
      }
    }
  }

  /** No division of the ordered targets uses fewer groups than the greedy one. */
  ghost predicate Optimal(job: Job, o: seq<Target>) {
    forall groups | Division(job, o, groups) :: |Greedy(job, o)| <= |groups|
  }

  /** Greedy has the fewest captures at a fixed rate, with a limit of two, and for every list a job makes. */
  lemma SteadyIsOptimal(job: Job, o: seq<Target>)
    requires JobValid(job) && Steady(job, o)
    ensures Optimal(job, o)
  {
    hide Steady;
    SteadyIsHereditary(job, o);
    forall groups | Division(job, o, groups) ensures |Greedy(job, o)| <= |groups| {
      assert o[0..] == o;
      GreedyStaysAhead(job, o, 0, 0, groups);
    }
  }

  // Wideband targets, if any, have this width.
  ghost predicate WidebandIs(ts: seq<Target>, width: real) {
    forall t | t in ts && t.wideband :: t.bandwidthHz == width
  }

  // Two narrow targets 800 kHz apart, and a wideband one above them that raises the rate.
  const EARLY: Target := Target(1, 100000000.0, 12500.0, false)
  const MIDDLE: Target := Target(2, 100800000.0, 12500.0, false)

  function Late(width: real): Target { Target(3, 100900000.0, width, true) }

  /** Lists that no job makes: a wideband target narrow enough to share a capture, next to narrow ones.  Where
      the rate can vary, greedy separates the first target before it sees the one that would have made room. */
  lemma NarrowWidebandIsNotOptimal(job: Job, width: real)
    requires JobValid(job) && !RatePinned(job) && job.limit >= 3 && width <= LONE_WIDTH
    ensures !Optimal(job, [EARLY, MIDDLE, Late(width)]) && !Plannable([EARLY, MIDDLE, Late(width)])
  {
    var o := [EARLY, MIDDLE, Late(width)];
    AutomaticRateValues(job.device, o);
    AutomaticRateValues(job.device, [EARLY, MIDDLE]);
    assert o[0] in o && o[2] in o;
    assert BatchRate(job, o) == 2400000 && BatchRate(job, [EARLY, MIDDLE]) == 1000000;
    assert o[..2] == [EARLY, MIDDLE];
    assert !Fits(o[..2], 1000000) by { assert High(o[..2][1]) - Low(o[..2][0]) > 840000.0; }
    assert Extent(job, o, 1) == 1;
    assert |Greedy(job, o[1..])| >= 1;
    assert Fits(o, 2400000);
    assert Concat([o]) == o by { assert [o][1..] == []; }
    assert Division(job, o, [o]);
  }

  /** How wide wideband targets must be: with this width for all of them, greedy is optimal on every list exactly
      when the rate is pinned, the limit is at most two, or the width is above 504 kHz.  The planner's is 2 MHz. */
  lemma OptimalExactly(job: Job, width: real)
    requires JobValid(job)
    ensures (forall o | WidebandIs(o, width) :: Optimal(job, o))
       <==> RatePinned(job) || job.limit <= 2 || width > LONE_WIDTH
  {
    if RatePinned(job) || job.limit <= 2 || width > LONE_WIDTH {
      forall o | WidebandIs(o, width) ensures Optimal(job, o) { SteadyIsOptimal(job, o); }
    } else {
      NarrowWidebandIsNotOptimal(job, width);
      assert WidebandIs([EARLY, MIDDLE, Late(width)], width);
    }
  }

  // ---- ordering ----

  ghost predicate Sorted(ts: seq<Target>) {
    forall i, j | 0 <= i < j < |ts| :: ts[i].frequencyHz <= ts[j].frequencyHz
  }

  // sort.SliceStable by frequency: each target goes after the last one that is not above it.
  function Insert(ts: seq<Target>, t: Target): seq<Target> {
    if |ts| == 0 || ts[|ts| - 1].frequencyHz <= t.frequencyHz then ts + [t]
    else Insert(ts[..|ts| - 1], t) + [ts[|ts| - 1]]
  }

  function StableSort(ts: seq<Target>): seq<Target> {
    if |ts| == 0 then [] else Insert(StableSort(ts[..|ts| - 1]), ts[|ts| - 1])
  }

  function At(ts: seq<Target>, f: real): seq<Target> {
    if |ts| == 0 then []
    else At(ts[..|ts| - 1], f) + (if ts[|ts| - 1].frequencyHz == f then [ts[|ts| - 1]] else [])
  }

  // Nothing in ts is above f.
  ghost predicate Below(ts: seq<Target>, f: real) {
    forall i | 0 <= i < |ts| :: ts[i].frequencyHz <= f
  }

  lemma {:induction false} InsertBelow(ts: seq<Target>, t: Target, f: real)
    requires Below(ts, f) && t.frequencyHz <= f
    ensures Below(Insert(ts, t), f)
  {
    if |ts| > 0 && ts[|ts| - 1].frequencyHz > t.frequencyHz { InsertBelow(ts[..|ts| - 1], t, f); }
  }

  lemma SortedOne(t: Target)
    ensures Sorted([] + [t])
  {
  }

  lemma BelowWeaken(ts: seq<Target>, f: real, g: real)
    requires Below(ts, f) && f <= g
    ensures Below(ts, g)
  {
  }

  lemma SortedExtended(ts: seq<Target>, t: Target)
    requires Sorted(ts) && Below(ts, t.frequencyHz)
    ensures Sorted(ts + [t])
  {
  }

  lemma SortedBelowLast(ts: seq<Target>)
    requires Sorted(ts) && |ts| > 0
    ensures Sorted(ts[..|ts| - 1]) && Below(ts[..|ts| - 1], ts[|ts| - 1].frequencyHz) && Below(ts, ts[|ts| - 1].frequencyHz)
  {
  }

  lemma {:induction false} InsertSorts(ts: seq<Target>, t: Target)
    requires Sorted(ts)
    ensures Sorted(Insert(ts, t))
  {
    hide Sorted, Below;
    if |ts| == 0 {
      SortedOne(t);
    } else {
      var init, last := ts[..|ts| - 1], ts[|ts| - 1];
      SortedBelowLast(ts);
      if last.frequencyHz <= t.frequencyHz {
        BelowWeaken(ts, last.frequencyHz, t.frequencyHz);
        SortedExtended(ts, t);
      } else {
        InsertSorts(init, t);
        InsertBelow(init, t, last.frequencyHz);
        SortedExtended(Insert(init, t), last);
      }
    }
  }

  lemma {:induction false} InsertKeepsAll(ts: seq<Target>, t: Target)
    ensures multiset(Insert(ts, t)) == multiset(ts) + multiset{t}
  {
    if |ts| > 0 && ts[|ts| - 1].frequencyHz > t.frequencyHz {
      assert ts == ts[..|ts| - 1] + [ts[|ts| - 1]];
      InsertKeepsAll(ts[..|ts| - 1], t);
    }
  }

  lemma {:induction false} InsertKeepsOrder(ts: seq<Target>, t: Target, f: real)
    requires Sorted(ts)
    ensures At(Insert(ts, t), f) == At(ts, f) + (if t.frequencyHz == f then [t] else [])
  {
    if |ts| > 0 && ts[|ts| - 1].frequencyHz > t.frequencyHz {
      var init, last := ts[..|ts| - 1], ts[|ts| - 1];
      InsertKeepsOrder(init, t, f);
      assert (Insert(init, t) + [last])[..|Insert(init, t)|] == Insert(init, t);
      if last.frequencyHz == f { assert t.frequencyHz != f; }
    } else {
      assert (ts + [t])[..|ts|] == ts;
    }
  }

  /** The ordering is a permutation by frequency that keeps the given order at each frequency. */
  lemma {:induction false} StableSortCorrect(ts: seq<Target>)
    ensures Sorted(StableSort(ts)) && multiset(StableSort(ts)) == multiset(ts)
    ensures forall f: real :: At(StableSort(ts), f) == At(ts, f)
  {
    if |ts| > 0 {
      var init, last := ts[..|ts| - 1], ts[|ts| - 1];
      assert ts == init + [last];
      StableSortCorrect(init);
      InsertSorts(StableSort(init), last);
      InsertKeepsAll(StableSort(init), last);
      forall f: real ensures At(StableSort(ts), f) == At(ts, f) { InsertKeepsOrder(StableSort(init), last, f); }
    }
  }

  lemma SteadySorted(job: Job, ts: seq<Target>)
    requires Steady(job, ts)
    ensures Steady(job, StableSort(ts))
  {
    hide StableSort, RatePinned;
    StableSortCorrect(ts);
    forall t | t in StableSort(ts) ensures t in ts { assert t in multiset(StableSort(ts)); }
  }

  // ---- the planner ----

  function GroupsOf(batches: seq<Batch>): (r: seq<seq<Target>>)
    ensures |r| == |batches|
  {
    seq(|batches|, k requires 0 <= k < |batches| => batches[k].targets)
  }

  // The inner loop: how many of the remaining targets the next capture takes.
  method GroupSize(job: Job, ordered: seq<Target>) returns (count: nat)
    requires |ordered| > 0
    ensures 1 <= count <= |ordered| && count == Extent(job, ordered, 1)
  {
    hide Fits, BatchRate, Allowed;
    count := 1;
    while count < |ordered| && count < job.limit
      invariant 1 <= count <= |ordered|
      invariant Extent(job, ordered, 1) == Extent(job, ordered, count)
      decreases |ordered| - count
    {
      var rate := BatchSampleRate(job, ordered[..count + 1]);
      var fits := FitsWindow(ordered[..count + 1], rate);
      if !fits { break; }
      count := count + 1;
    }
  }

  // A batch as it is recorded: a group the planner may capture together, with its rate.
  ghost predicate Planned(job: Job, b: Batch) {
    Allowed(job, b.targets) && b.sampleRate == BatchRate(job, b.targets)
  }

  lemma FirstGroup(job: Job, ordered: seq<Target>)
    requires |ordered| > 0
    ensures var c := Extent(job, ordered, 1);
            Greedy(job, ordered) == [ordered[..c]] + Greedy(job, ordered[c..]) && Allowed(job, ordered[..c])
  {
    hide Fits, BatchRate, Extent;
  }

  lemma GroupsOfAppend(batches: seq<Batch>, b: Batch)
    ensures GroupsOf(batches + [b]) == GroupsOf(batches) + [b.targets]
  {
  }

  /** What a group that may be captured together is: one target, or up to the limit within the window of their rate. */
  lemma AllowedExactly(job: Job, g: seq<Target>)
    ensures Allowed(job, g) <==>
            |g| == 1 || (1 < |g| <= job.limit && exists rate :: RateLaw(job, g, rate) && Window(g, rate))
  {
    hide RateLaw, Window, Fits, BatchRate;
    RateExactly(job, g, BatchRate(job, g));
    WindowExactly(g, BatchRate(job, g));
    if rate :| RateLaw(job, g, rate) && Window(g, rate) { RateExactly(job, g, rate); }
  }

  lemma PlannedRate(job: Job, b: Batch)
    requires Planned(job, b)
    ensures RateLaw(job, b.targets, b.sampleRate) && (|b.targets| > 1 ==> |b.targets| <= job.limit && Window(b.targets, b.sampleRate))
  {
    hide RateLaw, Window, Fits, BatchRate;
    RateExactly(job, b.targets, b.sampleRate);
    WindowExactly(b.targets, b.sampleRate);
  }

  /** mapperJobTargetBatches: the greedy division of the stably sorted targets, each group with its rate. */
  method TargetBatches(job: Job, targets: seq<Target>) returns (batches: seq<Batch>)
    requires JobValid(job)
    ensures GroupsOf(batches) == Greedy(job, StableSort(targets))
    ensures Concat(GroupsOf(batches)) == StableSort(targets)
    ensures forall b | b in batches :: Planned(job, b)
    ensures Steady(job, targets) ==> Optimal(job, StableSort(targets))
  {
    hide Allowed, Fits, BatchRate, Extent, Greedy, Optimal, StableSort, GroupsOf, Steady, Concat;
    var ordered := StableSort(targets);
    ghost var plan := Greedy(job, ordered);
    batches := [];
    GreedyCovers(job, ordered);
    if Steady(job, targets) {
      SteadySorted(job, targets);
      SteadyIsOptimal(job, ordered);
    }
    while |ordered| > 0
      invariant GroupsOf(batches) + Greedy(job, ordered) == plan
      invariant forall b | b in batches :: Planned(job, b)
      decreases |ordered|
    {
      var count := GroupSize(job, ordered);
      FirstGroup(job, ordered);
      var group := ordered[..count];
      var rate := BatchSampleRate(job, group);
      GroupsOfAppend(batches, Batch(group, rate));
      batches := batches + [Batch(group, rate)];
      ordered := ordered[count..];
    }
    NothingLeft(job, ordered);
    assert GroupsOf(batches) + [] == GroupsOf(batches);
  }

  lemma NothingLeft(job: Job, ordered: seq<Target>)
    requires |ordered| == 0
    ensures Greedy(job, ordered) == []
  {
  }

  /** A planned batch has between one and the channel limit of targets, and several of them only
      when their spans fit the window of its rate. */
  lemma PlannedSizes(job: Job, b: Batch)
    requires JobValid(job) && Planned(job, b)
    ensures 1 <= |b.targets| <= job.limit && b.sampleRate > 0
    ensures |b.targets| > 1 ==> Fits(b.targets, b.sampleRate)
  {
    hide Fits;
  }

  // ---- centring ----

  // surveyTuningOffset: how far from the receiver's centre a single target is placed.
  function TuningOffset(rate: int, bandwidth: real): real {
    var eighth := rate as real / 8.0;
    var minimum := Max(bandwidth * 2.5, 50000.0);
    var offset := Max(eighth, minimum);
    var maximum := rate as real * 0.42 - bandwidth / 2.0;
    if maximum > 0.0 && offset > maximum then maximum else offset
  }

  /** The channel of a single target lies inside the usable passband exactly when half the channel is
      narrower than it; and unless that bound decides, the centre spur is outside the noise window. */
  lemma TuningOffsetUsable(rate: int, bandwidth: real)
    ensures TuningOffset(rate, bandwidth) + bandwidth / 2.0 <= rate as real * 0.42 <==> bandwidth / 2.0 < rate as real * 0.42
    ensures TuningOffset(rate, bandwidth) >= Max(bandwidth * 2.5, 50000.0)
         || TuningOffset(rate, bandwidth) == rate as real * 0.42 - bandwidth / 2.0
  {
  }

  predicate Largest(m: real, a: real, b: real, c: real) { m >= a && m >= b && m >= c && (m == a || m == b || m == c) }

  /** The centre is above the target by the largest of an eighth of the rate, two and a half bandwidths and 50 kHz or,
      where that is too much and there is one, by what still leaves the channel in 42 percent of the rate; to half a hertz. */
  ghost predicate Beside(t: Target, rate: int, centerHz: int) {
    exists offset: real ::
      && OffsetLaw(rate, t.bandwidthHz, offset)
      && -0.5 <= centerHz as real - (t.frequencyHz + offset) <= 0.5
  }

  ghost predicate OffsetLaw(rate: int, bandwidth: real, offset: real) {
    var most := 0.42 * rate as real - 0.5 * bandwidth;
    && (Largest(offset, 0.125 * rate as real, 2.5 * bandwidth, 50000.0)
        || (offset == most > 0.0 && (0.125 * rate as real > most || 2.5 * bandwidth > most || 50000.0 > most)))
    && (most > 0.0 ==> offset <= most)
  }

  lemma TuningOffsetExactly(rate: int, bandwidth: real, offset: real)
    ensures OffsetLaw(rate, bandwidth, offset) <==> offset == TuningOffset(rate, bandwidth)
  {
  }

  lemma SingleBeside(t: Target, rate: int)
    ensures Beside(t, rate, SingleSpec(t, rate).centerHz) && SingleSpec(t, rate).sampleRate == rate
  {
    TuningOffsetExactly(rate, t.bandwidthHz, TuningOffset(rate, t.bandwidthHz));
    hide OffsetLaw, TuningOffset;
    var center := t.frequencyHz + TuningOffset(rate, t.bandwidthHz);
    assert -0.5 <= Round(center) as real - center <= 0.5;
  }

  datatype CaptureSpec = CaptureSpec(centerHz: int, sampleRate: int)

  function SingleSpec(t: Target, rate: int): CaptureSpec {
    CaptureSpec(Round(t.frequencyHz + TuningOffset(rate, t.bandwidthHz)), rate)
  }

  /** The distance from f to its nearest target. */
  function NearestDistance(ts: seq<Target>, f: real): (d: real)
    requires |ts| > 0
    ensures d >= 0.0
  {
    if |ts| == 1 then Distance(f, ts[0].frequencyHz)
    else Min(NearestDistance(ts[..|ts| - 1], f), Distance(f, ts[|ts| - 1].frequencyHz))
  }

  lemma {:induction false} NearestDistanceBound(ts: seq<Target>, f: real)
    requires |ts| > 0
    ensures forall t | t in ts :: NearestDistance(ts, f) <= Distance(f, t.frequencyHz)
    ensures exists t :: t in ts && NearestDistance(ts, f) == Distance(f, t.frequencyHz)
  {
    hide Distance;
    if |ts| == 1 {
      assert ts[0] in ts;
    } else {
      var init, last := ts[..|ts| - 1], ts[|ts| - 1];
      NearestDistanceBound(init, f);
      assert ts == init + [last];
      assert last in ts && forall t | t in init :: t in ts;
    }
  }

  method Nearest(ts: seq<Target>, f: real) returns (d: real)
    requires |ts| > 0
    ensures d == NearestDistance(ts, f)
  {
    hide Distance, Min;
    d := Distance(f, ts[0].frequencyHz);
    for k := 1 to |ts|
      invariant d == NearestDistance(ts[..k], f)
    {
      assert ts[..k + 1][..k] == ts[..k];
      d := Min(d, Distance(f, ts[k].frequencyHz));
    }
    assert ts[..|ts|] == ts;
  }

  function Clamp(lower: real, upper: real, value: real): (r: real)
    ensures lower <= upper ==> lower <= r <= upper
  {
    Max(lower, Min(upper, value))
  }

  function Guard(t: Target): real { Max(50000.0, t.bandwidthHz * 2.5) }

  function GuardCandidates(ts: seq<Target>, lower: real, upper: real): (r: seq<real>)
    ensures lower <= upper ==> forall c | c in r :: lower <= c <= upper
  {
    if |ts| == 0 then []
    else
      var t := ts[|ts| - 1];
      GuardCandidates(ts[..|ts| - 1], lower, upper)
      + [Clamp(lower, upper, t.frequencyHz - Guard(t)), Clamp(lower, upper, t.frequencyHz + Guard(t))]
  }

  /** The centres considered, given the lowest and the highest admissible one. */
  function Candidates(ts: seq<Target>, rate: int, lower: real, upper: real): (r: seq<real>)
    ensures |r| > 0
    ensures lower <= upper ==> forall c | c in r :: lower <= c <= upper
  {
    var midpoint := (lower + upper) / 2.0;
    [lower, upper, midpoint, Clamp(lower, upper, midpoint - rate as real * 0.12), Clamp(lower, upper, midpoint + rate as real * 0.12)]
    + GuardCandidates(ts, lower, upper)
  }

  // The centres from which every span is within 0.42 of the rate are those between these two.
  function LowerCenter(ts: seq<Target>, rate: int): real
    requires |ts| > 0
  {
    Highest(ts) - rate as real * 0.42
  }

  function UpperCenter(ts: seq<Target>, rate: int): real
    requires |ts| > 0
  {
    Lowest(ts) + rate as real * 0.42
  }

  // Every target's whole span is within 0.42 of the rate, and some slack, from the centre.
  ghost predicate InPassband(ts: seq<Target>, rate: int, center: real, slack: real) {
    forall t | t in ts :: center - rate as real * 0.42 - slack <= Low(t) && High(t) <= center + rate as real * 0.42 + slack
  }

  lemma PassbandCenters(ts: seq<Target>, rate: int, center: real)
    requires |ts| > 0
    ensures LowerCenter(ts, rate) <= center <= UpperCenter(ts, rate) <==> InPassband(ts, rate, center, 0.0)
  {
    hide Low, High, Lowest, Highest;
    ExtremesBound(ts);
  }

  lemma PassbandRounded(ts: seq<Target>, rate: int, center: real)
    requires InPassband(ts, rate, center, 0.0)
    ensures InPassband(ts, rate, Round(center) as real, 0.5)
  {
    hide Low, High, Round;
  }

  /** center is the first of the candidates that are farthest from their nearest target. */
  ghost predicate Farthest(ts: seq<Target>, candidates: seq<real>, center: real)
    requires |ts| > 0
  {
    exists k | 0 <= k < |candidates| :: center == candidates[k] && FarthestAt(ts, candidates, k)
  }

  ghost predicate FarthestAt(ts: seq<Target>, candidates: seq<real>, k: int)
    requires |ts| > 0 && 0 <= k < |candidates|
  {
    && (forall i | 0 <= i < |candidates| :: NearestDistance(ts, candidates[i]) <= NearestDistance(ts, candidates[k]))
    && (forall i | 0 <= i < k :: NearestDistance(ts, candidates[i]) < NearestDistance(ts, candidates[k]))
  }

  // The search loop.
  method PickFarthest(ts: seq<Target>, candidates: seq<real>, midpoint: real) returns (center: real)
    requires |ts| > 0 && |candidates| > 0
    ensures Farthest(ts, candidates, center)
  {
    center := midpoint;
    var bestDistance := -1.0;
    ghost var best := 0;
    for k := 0 to |candidates|
      invariant 0 <= best < |candidates|
      invariant k == 0 ==> bestDistance == -1.0
      invariant k > 0 ==> best < k && center == candidates[best] && bestDistance == NearestDistance(ts, center)
      invariant forall i | 0 <= i < k :: NearestDistance(ts, candidates[i]) <= bestDistance
      invariant forall i | 0 <= i < best :: NearestDistance(ts, candidates[i]) < bestDistance
    {
      var nearest := Nearest(ts, candidates[k]);
      if nearest > bestDistance {
        center, bestDistance := candidates[k], nearest;
        best := k;
      }
    }
    assert FarthestAt(ts, candidates, best);
  }

  method AllCandidates(ts: seq<Target>, rate: int, lower: real, upper: real, midpoint: real) returns (candidates: seq<real>)
    requires midpoint == (lower + upper) / 2.0
    ensures candidates == Candidates(ts, rate, lower, upper)
  {
    hide Clamp;
    candidates := [lower, upper, midpoint, Clamp(lower, upper, midpoint - rate as real * 0.12),
                   Clamp(lower, upper, midpoint + rate as real * 0.12)];
    ghost var fixed := candidates;
    for k := 0 to |ts|
      invariant candidates == fixed + GuardCandidates(ts[..k], lower, upper)
    {
      assert ts[..k + 1][..k] == ts[..k];
      var guard := Max(50000.0, ts[k].bandwidthHz * 2.5);
      candidates := candidates + [Clamp(lower, upper, ts[k].frequencyHz - guard), Clamp(lower, upper, ts[k].frequencyHz + guard)];
    }
    assert ts[..|ts|] == ts;
  }

  // The specification of a group: centred on the farthest admissible candidate.
  ghost predicate GroupSpec(ts: seq<Target>, rate: int, spec: CaptureSpec)
    requires |ts| > 0
  {
    exists center: real ::
      && Farthest(ts, Candidates(ts, rate, LowerCenter(ts, rate), UpperCenter(ts, rate)), center)
      && InPassband(ts, rate, center, 0.0)
      && spec == CaptureSpec(Round(center), rate)
  }

  /** mapperBatchCaptureSpec: a batch gets a specification unless it is empty, has no rate or does not fit
      the window.  A group's unrounded centre keeps every span in the passband and is the farthest of the
      candidates from its nearest target. */
  method BatchCaptureSpec(batch: Batch) returns (spec: Option<CaptureSpec>)
    ensures var one := |batch.targets| == 1; spec.Some? <==> (batch.sampleRate > 0 && (one || Fits(batch.targets, batch.sampleRate)))
    ensures spec.Some? && |batch.targets| == 1 ==> spec.value == SingleSpec(batch.targets[0], batch.sampleRate)
    ensures spec.Some? && |batch.targets| == 1 ==> Beside(batch.targets[0], batch.sampleRate, spec.value.centerHz)
    ensures spec.Some? && |batch.targets| > 1 ==> GroupSpec(batch.targets, batch.sampleRate, spec.value)
  {
    hide Within, Farthest, Candidates, InPassband, Lowest, Highest, Round, TuningOffset, Beside, SingleSpec;
    var ts, rate := batch.targets, batch.sampleRate;
    if |ts| == 0 || rate <= 0 { return None; }
    if |ts| == 1 {
      SingleBeside(ts[0], rate);
      return Some(SingleSpec(ts[0], rate));
    }
    var minimum, maximum := Extremes(ts);
    WithinExtremes(ts, rate as real * 0.84);
    var halfUsable := rate as real * 0.42;
    var lower, upper := maximum - halfUsable, minimum + halfUsable;
    if lower > upper { return None; }
    var midpoint := (minimum + maximum) / 2.0;
    var candidates := AllCandidates(ts, rate, lower, upper, midpoint);
    var center := PickFarthest(ts, candidates, midpoint);
    FarthestIsCandidate(ts, candidates, center);
    PassbandCenters(ts, rate, center);
    spec := Some(CaptureSpec(Round(center), rate));
  }

  lemma FarthestIsCandidate(ts: seq<Target>, candidates: seq<real>, center: real)
    requires |ts| > 0 && Farthest(ts, candidates, center)
    ensures center in candidates
  {
  }

  lemma GroupSpecInPassband(ts: seq<Target>, rate: int, spec: CaptureSpec)
    requires |ts| > 0 && GroupSpec(ts, rate, spec)
    ensures spec.sampleRate == rate && InPassband(ts, rate, spec.centerHz as real, 0.5)
  {
    hide Farthest, Candidates, InPassband, LowerCenter, UpperCenter, Round;
    var center: real :|
      && Farthest(ts, Candidates(ts, rate, LowerCenter(ts, rate), UpperCenter(ts, rate)), center)
      && InPassband(ts, rate, center, 0.0)
      && spec == CaptureSpec(Round(center), rate);
    PassbandRounded(ts, rate, center);
  }

  /** Every planned batch gets a capture; in a group every target is where the receiver can hear it,
      the hardware centre being off by at most half a hertz of rounding. */
  method PlanCaptures(job: Job, targets: seq<Target>) returns (batches: seq<Batch>, specs: seq<CaptureSpec>)
    requires JobValid(job)
    ensures Concat(GroupsOf(batches)) == StableSort(targets) && |specs| == |batches|
    ensures GroupsOf(batches) == Greedy(job, StableSort(targets))
    ensures Steady(job, targets) ==> Optimal(job, StableSort(targets))
    ensures forall k | 0 <= k < |specs| :: Captured(job, batches[k], specs[k])
  {
    hide Captured, Planned, Fits, GroupSpec, StableSort, Concat, GroupsOf, SingleSpec, Greedy, Optimal, Steady;
    batches := TargetBatches(job, targets);
    specs := [];
    for k := 0 to |batches|
      invariant |specs| == k
      invariant forall i | 0 <= i < k :: Captured(job, batches[i], specs[i])
    {
      assert Planned(job, batches[k]);
      PlannedSizes(job, batches[k]);
      var spec := BatchCaptureSpec(batches[k]);
      CapturedBySpec(job, batches[k], spec.value);
      specs := specs + [spec.value];
    }
  }

  ghost predicate Captured(job: Job, b: Batch, spec: CaptureSpec) {
    && Planned(job, b)
    && 1 <= |b.targets| <= job.limit
    && spec.sampleRate == b.sampleRate
    && RateLaw(job, b.targets, b.sampleRate)
    && (|b.targets| == 1 ==> Beside(b.targets[0], b.sampleRate, spec.centerHz))
    && (|b.targets| > 1 ==> Window(b.targets, b.sampleRate))
    && (|b.targets| > 1 ==> InPassband(b.targets, b.sampleRate, spec.centerHz as real, 0.5))
  }

  lemma CapturedBySpec(job: Job, b: Batch, spec: CaptureSpec)
    requires JobValid(job) && Planned(job, b)
    requires |b.targets| == 1 ==> spec == SingleSpec(b.targets[0], b.sampleRate)
    requires |b.targets| > 1 ==> GroupSpec(b.targets, b.sampleRate, spec)
    ensures Captured(job, b, spec)
  {
    hide InPassband, GroupSpec, Planned, RateLaw, Window, Beside, SingleSpec;
    PlannedSizes(job, b);
    PlannedRate(job, b);
    SingleBeside(b.targets[0], b.sampleRate);
    if |b.targets| > 1 { GroupSpecInPassband(b.targets, b.sampleRate, spec); }
  }
}
