/** mapperJobTargets of server/internal/app/live_survey.go: the targets a Mapper job makes of its configuration
    and of the mapped frequencies, and why the planner of MapperPlan is optimal for every one of them.
    lower stands for strings.ToLower. */
module MapperTargets {
  import opened Wrappers
  import opened GoMath
  import opened GoText
  import opened MapperPlan

  datatype Order = Recent | Oldest | Occupancy | Frequency | Hits

  datatype Config = Config(identify: bool, startHz: real, endHz: real, stepHz: real, preferredMode: string,
                           preferredDecoder: string, detectionBandwidthHz: real, minimumHits: int,
                           minimumOccupancy: real, combined: bool, seenSince: Option<int>, maximumChannels: int, order: Order)

  datatype Record = Record(id: int, frequencyHz: real, modulation: string, candidateDecoder: string, lastSeen: int,
                           hits: int, checks: int, discoveryHits: int, discoveryChecks: int)

  datatype TargetsResult = Targets(targets: seq<Target>) | NothingToIdentify | BadRange | TooManySteps

  // ---- decoders ----

  function CanonicalDecoder(lower: string -> string, value: string): string {
    var v := lower(TrimSpace(value));
    if v in {"rtl_433", "rtl433"} then "rtl-433"
    else if v in {"ads-b", "adsb", "mode s", "ads-b / mode s"} then "dump1090"
    else if v == "ais-catcher" then "ais"
    else if v in {"dump978-fa", "uat"} then "dump978"
    else if v in {"aprs", "ax.25", "packet", "packet-radio"} then "direwolf"
    else if v in {"weather", "noaa", "apt", "noaa apt"} then "noaa-apt"
    else if v in {"slow-scan", "slow scan", "sstv", "robot36", "pd120", "pd180"} then "sstv"
    else if v == "acars" then "acarsdec"
    else if v in {"pocsag", "flex", "mdc1200", "dtmf"} then "multimon-ng"
    else if v in {"dmr", "nxdn", "d-star", "ysf", "m17"} then "dsd-fme"
    else v
  }

  // The decoder that liveSampleRate gives 2.4 Msps.
  predicate Wideband(lower: string -> string, decoder: string) { CanonicalDecoder(lower, decoder) == "dump1090" }

  function DecoderBandwidth(lower: string -> string, decoder: string, fallback: real): real {
    var d := CanonicalDecoder(lower, decoder);
    if d == "dump1090" then 2000000.0
    else if d == "rtl-433" then Max(fallback, 250000.0)
    else if d == "ais" || d == "acarsdec" then Max(fallback, 25000.0)
    else Max(fallback, 12500.0)
  }

  // ---- Identify ----

  // mapperIdentifyHistory
  function History(r: Record, combined: bool): (int, real) {
    var own := !combined && !(r.discoveryHits == 0 && r.discoveryChecks == 0);
    var hits, checks := if own then r.discoveryHits else r.hits, if own then r.discoveryChecks else r.checks;
    (hits, if checks > 0 then hits as real / checks as real else 0.0)
  }

  predicate Eligible(c: Config, r: Record) {
    var (hits, occupancy) := History(r, c.combined);
    && hits >= c.minimumHits && occupancy >= c.minimumOccupancy
    && !(c.startHz > 0.0 && r.frequencyHz < c.startHz) && !(c.endHz > 0.0 && r.frequencyHz > c.endHz)
    && (c.seenSince.Some? ==> r.lastSeen >= c.seenSince.value)
  }

  // What the job's order puts first.
  predicate Before(c: Config, a: Record, b: Record) {
    var (aHits, aOccupancy) := History(a, c.combined);
    var (bHits, bOccupancy) := History(b, c.combined);
    match c.order
    case Recent => a.lastSeen > b.lastSeen
    case Oldest => a.lastSeen < b.lastSeen
    case Occupancy => aOccupancy > bOccupancy || (aOccupancy == bOccupancy && aHits > bHits)
    case Frequency => a.frequencyHz < b.frequencyHz
    case Hits => aHits > bHits || (aHits == bHits && a.lastSeen > b.lastSeen)
  }

  // sort.SliceStable by that order.
  function Place(c: Config, rs: seq<Record>, r: Record): seq<Record> {
    if |rs| == 0 || !Before(c, r, rs[|rs| - 1]) then rs + [r]
    else Place(c, rs[..|rs| - 1], r) + [rs[|rs| - 1]]
  }

  function Rank(c: Config, rs: seq<Record>): seq<Record> {
    if |rs| == 0 then [] else Place(c, Rank(c, rs[..|rs| - 1]), rs[|rs| - 1])
  }

  function Filtered(c: Config, rs: seq<Record>): seq<Record> {
    if |rs| == 0 then []
    else Filtered(c, rs[..|rs| - 1]) + if Eligible(c, rs[|rs| - 1]) then [rs[|rs| - 1]] else []
  }

  function Capped(c: Config, rs: seq<Record>): seq<Record> {
    if 0 < c.maximumChannels < |rs| then rs[..c.maximumChannels] else rs
  }

  // The records Identify listens to.
  function Chosen(c: Config, rs: seq<Record>): seq<Record> { Capped(c, Rank(c, Filtered(c, rs))) }

  ghost predicate Ranked(c: Config, rs: seq<Record>) {
    forall i, j | 0 <= i < j < |rs| :: !Before(c, rs[j], rs[i])
  }

  // Nothing in rs comes after r.
  ghost predicate NoneAfter(c: Config, rs: seq<Record>, r: Record) {
    forall i | 0 <= i < |rs| :: !Before(c, r, rs[i])
  }

  lemma BeforeIsOrder(c: Config, x: Record, y: Record, z: Record)
    ensures !(Before(c, x, y) && Before(c, y, x))
    ensures !Before(c, x, y) && !Before(c, y, z) ==> !Before(c, x, z)
  {
  }

  lemma {:induction false} PlaceNoneAfter(c: Config, rs: seq<Record>, r: Record, top: Record)
    requires NoneAfter(c, rs, top) && !Before(c, top, r)
    ensures NoneAfter(c, Place(c, rs, r), top)
  {
    hide Before;
    if |rs| > 0 && Before(c, r, rs[|rs| - 1]) { PlaceNoneAfter(c, rs[..|rs| - 1], r, top); }
  }

  lemma RankedLast(c: Config, rs: seq<Record>, r: Record)
    requires Ranked(c, rs) && |rs| > 0 && !Before(c, r, rs[|rs| - 1])
    ensures NoneAfter(c, rs, r)
  {
    hide Before;
    forall i | 0 <= i < |rs| ensures !Before(c, r, rs[i]) { BeforeIsOrder(c, r, rs[|rs| - 1], rs[i]); }
  }

  lemma {:induction false} PlaceRanks(c: Config, rs: seq<Record>, r: Record)
    requires Ranked(c, rs)
    ensures Ranked(c, Place(c, rs, r)) && multiset(Place(c, rs, r)) == multiset(rs) + multiset{r}
  {
    hide Before;
    if |rs| > 0 {
      var init, last := rs[..|rs| - 1], rs[|rs| - 1];
      assert rs == init + [last];
      if Before(c, r, last) {
        PlaceRanks(c, init, r);
        BeforeIsOrder(c, r, last, last);
        PlaceNoneAfter(c, init, r, last);
      } else {
        RankedLast(c, rs, r);
      }
    }
  }

  lemma {:induction false} RankRanks(c: Config, rs: seq<Record>)
    ensures Ranked(c, Rank(c, rs)) && multiset(Rank(c, rs)) == multiset(rs)
  {
    hide Before, Place;
    if |rs| > 0 {
      assert rs == rs[..|rs| - 1] + [rs[|rs| - 1]];
      RankRanks(c, rs[..|rs| - 1]);
      PlaceRanks(c, Rank(c, rs[..|rs| - 1]), rs[|rs| - 1]);
    }
  }

  lemma {:induction false} FilteredExactly(c: Config, rs: seq<Record>)
    ensures forall r :: r in Filtered(c, rs) <==> r in rs && Eligible(c, r)
  {
    hide Eligible;
    if |rs| > 0 {
      FilteredExactly(c, rs[..|rs| - 1]);
      assert rs == rs[..|rs| - 1] + [rs[|rs| - 1]];
    }
  }

  /** Identify listens to eligible records only, and to all of them unless it is limited; then to as many as the
      limit says, none of which an eligible record that was left out comes before. */
  lemma ChosenAreBest(c: Config, rs: seq<Record>)
    ensures var chosen := Chosen(c, rs);
            && (forall r | r in chosen :: r in rs && Eligible(c, r))
            && (|chosen| == if 0 < c.maximumChannels < |Filtered(c, rs)| then c.maximumChannels else |Filtered(c, rs)|)
            && (forall r, s | r in rs && Eligible(c, r) && r !in chosen && s in chosen :: !Before(c, r, s))
            && (c.maximumChannels <= 0 ==> forall r | r in rs && Eligible(c, r) :: r in chosen)
  {
    hide Before, Rank, Filtered, Eligible;
    var all, chosen := Rank(c, Filtered(c, rs)), Chosen(c, rs);
    RankRanks(c, Filtered(c, rs));
    FilteredExactly(c, rs);
    assert |all| == |multiset(all)| == |Filtered(c, rs)|;
    forall r ensures r in all <==> r in Filtered(c, rs) { assert r in multiset(all) <==> r in all; }
    forall r, s | r in all && r !in chosen && s in chosen ensures !Before(c, r, s) {
      var j :| 0 <= j < |all| && all[j] == r;
      var i :| 0 <= i < |chosen| && chosen[i] == s;
      BehindThose(all, |chosen|, j);
      assert all[i] == s;
    }
  }

  lemma BehindThose(all: seq<Record>, n: nat, j: nat)
    requires n <= |all| && j < |all| && all[j] !in all[..n]
    ensures j >= n
  {
    assert forall i | 0 <= i < n :: all[i] in all[..n];
  }

  function IdentifyDecoder(c: Config, r: Record): string {
    if c.preferredDecoder != "" then c.preferredDecoder else r.candidateDecoder
  }

  function IdentifyMode(lower: string -> string, c: Config, r: Record): string {
    var mode := if c.preferredMode != "" && c.preferredMode != "auto" then c.preferredMode else lower(TrimSpace(r.modulation));
    if mode != "am" && mode != "wfm" && mode != "nfm" then "auto" else mode
  }

  function IdentifyTarget(lower: string -> string, c: Config, r: Record): Target {
    var bandwidth := if IdentifyMode(lower, c, r) == "wfm" then 180000.0 else 12500.0;
    Target(r.id, r.frequencyHz, DecoderBandwidth(lower, IdentifyDecoder(c, r), bandwidth), Wideband(lower, IdentifyDecoder(c, r)))
  }

  function IdentifyTargets(lower: string -> string, c: Config, rs: seq<Record>): (ts: seq<Target>)
    ensures |ts| == |rs|
  {
    seq(|rs|, k requires 0 <= k < |rs| => IdentifyTarget(lower, c, rs[k]))
  }

  // ---- Discovery ----

  // math.Mod
  function Mod(x: real, m: real): real
    requires m > 0.0
  {
    if x >= 0.0 then x - (x / m).Floor as real * m else x + (-x / m).Floor as real * m
  }

  // mapperDetectionBandwidth
  function DetectionBandwidth(lower: string -> string, c: Config, f: real): real {
    var mode, decoder := lower(TrimSpace(c.preferredMode)), CanonicalDecoder(lower, c.preferredDecoder);
    if c.detectionBandwidthHz > 0.0 then c.detectionBandwidthHz
    else if mode == "wfm" || mode == "fm" then 200000.0
    else if mode == "am" then Max(c.stepHz, 10000.0)
    else if mode in {"nfm", "digital", "p25", "dmr"} then Max(c.stepHz, 12500.0)
    else if decoder != "" && decoder != "auto" then DecoderBandwidth(lower, decoder, c.stepHz)
    else if 87500000.0 <= f <= 108000000.0 then
      if Distance(Mod(f, 200000.0), 100000.0) <= Max(1.0, c.stepHz * 0.1) then 200000.0 else Max(c.stepHz, 25000.0)
    else if 530000.0 <= f <= 1710000.0 then 10000.0
    else if 118000000.0 <= f <= 137000000.0 then 25000.0
    else if Distance(f, 1090000000.0) <= Max(1.0, c.stepHz * 0.49) then 2000000.0
    else Max(c.stepHz, 25000.0)
  }

  function Times(x: real, y: real): real { x * y }

  function GridPoint(c: Config, k: nat): real { c.startHz + Times(k as real, c.stepHz) }

  function DiscoveryTarget(lower: string -> string, c: Config, k: nat): Target {
    var f := GridPoint(c, k);
    Target(k, f, DetectionBandwidth(lower, c, f), Wideband(lower, TrimSpace(c.preferredDecoder)))
  }

  // How many steps the loop makes: up to a thousandth of a step past the end.
  function GridSize(c: Config): (n: nat)
    requires c.stepHz > 0.0 && c.startHz <= c.endHz
  {
    Ratio(c.endHz - c.startHz, c.stepHz);
    ((c.endHz - c.startHz) / c.stepHz + 0.001).Floor + 1
  }

  function DiscoveryTargets(lower: string -> string, c: Config, count: nat): (ts: seq<Target>)
    ensures |ts| == count
  {
    seq(count, k requires 0 <= k < count => DiscoveryTarget(lower, c, k))
  }

  lemma Ratio(x: real, y: real)
    requires x >= 0.0 && y > 0.0
    ensures x / y >= 0.0 && Times(x / y, y) == x
  {
  }

  lemma Larger(x: real, y: real, s: real)
    requires s > 0.0
    ensures x <= y <==> Times(x, s) <= Times(y, s)
  {
    if x < y { PositiveTimes(y - x, s); }
    if y < x { PositiveTimes(x - y, s); }
  }

  lemma PositiveTimes(d: real, s: real)
    requires d > 0.0 && s > 0.0
    ensures Times(d, s) > 0.0
  {
  }

  // The loop's test on a grid point, by its index.
  lemma OnGrid(c: Config, k: nat)
    requires c.stepHz > 0.0 && c.startHz <= c.endHz
    ensures GridPoint(c, k) <= c.endHz + c.stepHz * 0.001 <==> k < GridSize(c)
  {
    var q := (c.endHz - c.startHz) / c.stepHz;
    Ratio(c.endHz - c.startHz, c.stepHz);
    Larger(k as real, q + 0.001, c.stepHz);
    assert (q + 0.001) * c.stepHz == q * c.stepHz + c.stepHz * 0.001;
  }

  /** Every frequency of the range is at or less than a step above a target. */
  lemma GridCovers(lower: string -> string, c: Config, f: real) returns (k: nat)
    requires c.stepHz > 0.0 && c.startHz <= f <= c.endHz
    ensures k < |DiscoveryTargets(lower, c, GridSize(c))|
    ensures var t := DiscoveryTargets(lower, c, GridSize(c))[k]; t.frequencyHz <= f < t.frequencyHz + c.stepHz
  {
    hide DetectionBandwidth, Wideband, GridSize;
    k := WholeSteps(f - c.startHz, c.stepHz);
    PositiveTimes(c.stepHz, 0.001);
    OnGrid(c, k);
    assert DiscoveryTargets(lower, c, GridSize(c))[k] == DiscoveryTarget(lower, c, k);
  }

  lemma WholeSteps(x: real, s: real) returns (k: nat)
    requires x >= 0.0 && s > 0.0
    ensures Times(k as real, s) <= x < Times(k as real, s) + s
  {
    hide Times;
    Ratio(x, s);
    var q := x / s;
    k := q.Floor;
    Between(k as real, q, s);
  }

  lemma Between(k: real, q: real, s: real)
    requires s > 0.0 && k <= q < k + 1.0
    ensures Times(k, s) <= Times(q, s) < Times(k, s) + s
  {
    hide Times;
    Larger(k, q, s);
    PositiveTimes(k + 1.0 - q, s);
    Distributes(k, q, s);
  }

  lemma Distributes(k: real, q: real, s: real)
    ensures Times(k + 1.0 - q, s) == Times(k, s) + s - Times(q, s)
  {
  }

  // ---- the targets of a job ----

  function JobTargets(lower: string -> string, c: Config, records: seq<Record>): TargetsResult {
    if c.identify then
      var ts := IdentifyTargets(lower, c, Chosen(c, records));
      if |ts| == 0 then NothingToIdentify else Targets(ts)
    else if c.stepHz <= 0.0 || c.endHz < c.startHz then BadRange
    else if ((c.endHz - c.startHz) / c.stepHz).Floor + 1 > 1000000 then TooManySteps
    else Targets(DiscoveryTargets(lower, c, GridSize(c)))
  }

  /** Every list a job makes is plannable: in Identify a dump1090 target is 2 MHz wide, because its bandwidth comes
      from its decoder; in Discovery all targets have the same decoder.  And it is not empty. */
  lemma JobTargetsPlannable(lower: string -> string, c: Config, records: seq<Record>)
    requires JobTargets(lower, c, records).Targets?
    ensures var ts := JobTargets(lower, c, records).targets; |ts| > 0 && Plannable(ts)
  {
    hide Chosen, DetectionBandwidth, CanonicalDecoder, GridSize;
    if c.identify {
      IdentifyIsWideAlone(lower, c, Chosen(c, records));
    } else {
      OnGrid(c, 0);
      Ratio(0.0, c.stepHz);
      assert GridPoint(c, 0) == c.startHz;
    }
  }

  lemma IdentifyIsWideAlone(lower: string -> string, c: Config, rs: seq<Record>)
    ensures WideAlone(IdentifyTargets(lower, c, rs))
  {
    hide CanonicalDecoder;
  }

  // ---- what the targets are, in the fields of records and configuration ----

  // The hits and checks that the filter goes by: a record without Discovery history has only its combined one.
  predicate Combined(c: Config, r: Record) { c.combined || (r.discoveryHits == 0 && r.discoveryChecks == 0) }

  function HitsOf(c: Config, r: Record): int { if Combined(c, r) then r.hits else r.discoveryHits }

  function ChecksOf(c: Config, r: Record): int { if Combined(c, r) then r.checks else r.discoveryChecks }

  /** The record passes the filter: enough hits, enough of the checks were hits, inside the range where there is
      one, and recent enough. */
  predicate Passes(c: Config, r: Record) {
    && HitsOf(c, r) >= c.minimumHits
    && (if ChecksOf(c, r) > 0 then HitsOf(c, r) as real >= c.minimumOccupancy * ChecksOf(c, r) as real else c.minimumOccupancy <= 0.0)
    && (c.startHz <= 0.0 || c.startHz <= r.frequencyHz) && (c.endHz <= 0.0 || r.frequencyHz <= c.endHz)
    && (c.seenSince == None || c.seenSince.value <= r.lastSeen)
  }

  lemma PassesExactly(c: Config, r: Record)
    ensures Eligible(c, r) <==> Passes(c, r)
  {
    if ChecksOf(c, r) > 0 { Share(HitsOf(c, r) as real, ChecksOf(c, r) as real, c.minimumOccupancy); }
  }

  lemma Share(h: real, n: real, least: real)
    requires n > 0.0
    ensures h / n >= least <==> h >= least * n
  {
    var q := h / n;
    assert q * n == h;
    Larger(least, q, n);
  }

  // Left out after all chosen ones, by each order the job may name.
  predicate NoBetter(c: Config, left: Record, chosen: Record) {
    match c.order
    case Recent => left.lastSeen <= chosen.lastSeen
    case Oldest => left.lastSeen >= chosen.lastSeen
    case Frequency => left.frequencyHz >= chosen.frequencyHz
    case Hits =>
      HitsOf(c, left) < HitsOf(c, chosen) || (HitsOf(c, left) == HitsOf(c, chosen) && left.lastSeen <= chosen.lastSeen)
    case Occupancy =>
      Occupied(c, left) < Occupied(c, chosen)
      || (Occupied(c, left) == Occupied(c, chosen) && HitsOf(c, left) <= HitsOf(c, chosen))
  }

  function Occupied(c: Config, r: Record): real {
    if ChecksOf(c, r) <= 0 then 0.0 else HitsOf(c, r) as real / ChecksOf(c, r) as real
  }

  lemma NoBetterExactly(c: Config, left: Record, chosen: Record)
    ensures NoBetter(c, left, chosen) <==> !Before(c, left, chosen)
  {
  }

  /** A target listens to a record: at its frequency, and as wide as its decoder and modulation need. */
  predicate ListensTo(lower: string -> string, c: Config, t: Target, r: Record) {
    var decoder := CanonicalDecoder(lower, if c.preferredDecoder == "" then r.candidateDecoder else c.preferredDecoder);
    var wfm := if c.preferredMode in {"", "auto"} then lower(TrimSpace(r.modulation)) == "wfm" else c.preferredMode == "wfm";
    && t.id == r.id && t.frequencyHz == r.frequencyHz && t.wideband == (decoder == "dump1090")
    && (decoder == "dump1090" ==> t.bandwidthHz == 2000000.0)
    && (decoder == "rtl-433" ==> t.bandwidthHz == 250000.0)
    && (decoder in {"ais", "acarsdec"} && !wfm ==> t.bandwidthHz == 25000.0)
    && (decoder !in {"dump1090", "rtl-433", "ais", "acarsdec"} && !wfm ==> t.bandwidthHz == 12500.0)
    && (decoder !in {"dump1090", "rtl-433"} && wfm ==> t.bandwidthHz == 180000.0)
  }

  lemma TargetListens(lower: string -> string, c: Config, r: Record)
    ensures ListensTo(lower, c, IdentifyTarget(lower, c, r), r)
  {
    hide CanonicalDecoder;
  }

  /** The names under which the wideband decoder, and the others with a width of their own, are known. */
  lemma DecoderNames(lower: string -> string, value: string)
    ensures var v, d := lower(TrimSpace(value)), CanonicalDecoder(lower, value);
            && (d == "dump1090" <==> v in {"dump1090", "ads-b", "adsb", "mode s", "ads-b / mode s"})
            && (d == "rtl-433" <==> v in {"rtl-433", "rtl_433", "rtl433"})
            && (d == "ais" <==> v in {"ais", "ais-catcher"}) && (d == "acarsdec" <==> v in {"acarsdec", "acars"})
  {
  }

  /** What Identify makes of the mapped records: the targets are those of records that pass the filter, one for each
      of some; of all of them unless the number is limited, and then no record left out is better. */
  ghost predicate Hears(lower: string -> string, c: Config, records: seq<Record>, ts: seq<Target>, chosen: seq<Record>) {
    && |chosen| == |ts| && (forall k | 0 <= k < |ts| :: ListensTo(lower, c, ts[k], chosen[k]))
    && (forall r | r in chosen :: r in records && Passes(c, r))
    && (c.maximumChannels > 0 ==> |ts| <= c.maximumChannels)
    && (c.maximumChannels <= 0 || |ts| < c.maximumChannels ==> forall r | r in records && Passes(c, r) :: r in chosen)
    && (forall r, s | r in records && Passes(c, r) && r !in chosen && s in chosen :: NoBetter(c, r, s))
    && multiset(chosen) <= multiset(records)
  }

  lemma {:induction false} FilteredWithin(c: Config, rs: seq<Record>)
    ensures multiset(Filtered(c, rs)) <= multiset(rs)
  {
    hide Eligible;
    if |rs| > 0 {
      FilteredWithin(c, rs[..|rs| - 1]);
      assert rs == rs[..|rs| - 1] + [rs[|rs| - 1]];
    }
  }

  lemma ChosenWithin(c: Config, rs: seq<Record>)
    ensures multiset(Chosen(c, rs)) <= multiset(rs)
  {
    hide Filtered, Rank;
    FilteredWithin(c, rs);
    RankRanks(c, Filtered(c, rs));
    var all := Rank(c, Filtered(c, rs));
    assert all == Chosen(c, rs) + all[|Chosen(c, rs)|..];
  }

  lemma IdentifyHears(lower: string -> string, c: Config, records: seq<Record>)
    ensures Hears(lower, c, records, IdentifyTargets(lower, c, Chosen(c, records)), Chosen(c, records))
  {
    hide Passes, Eligible, NoBetter, Before, ListensTo, IdentifyTarget, Filtered, Rank;
    var chosen := Chosen(c, records);
    ChosenAreBest(c, records);
    ChosenWithin(c, records);
    AllChosen(c, records);
    forall k | 0 <= k < |chosen| ensures ListensTo(lower, c, IdentifyTargets(lower, c, chosen)[k], chosen[k]) {
      TargetListens(lower, c, chosen[k]);
    }
    forall r ensures Eligible(c, r) <==> Passes(c, r) { PassesExactly(c, r); }
    forall r, s | r in records && Passes(c, r) && r !in chosen && s in chosen ensures NoBetter(c, r, s) {
      NoBetterExactly(c, r, s);
    }
  }

  // Below its limit Identify takes every eligible record.
  lemma AllChosen(c: Config, rs: seq<Record>)
    ensures |Chosen(c, rs)| < c.maximumChannels ==> forall r | r in rs && Eligible(c, r) :: r in Chosen(c, rs)
  {
    hide Filtered, Rank, Eligible;
    RankRanks(c, Filtered(c, rs));
    FilteredExactly(c, rs);
    var all := Rank(c, Filtered(c, rs));
    forall r ensures r in all <==> r in Filtered(c, rs) { assert r in multiset(all) <==> r in all; }
  }

  /** What Discovery makes of its range: a target at every whole step from the start, up to a thousandth of a step
      past the end, so that every frequency of the range is at one or less than a step above one. */
  ghost predicate Sweeps(c: Config, ts: seq<Target>) {
    && |ts| > 0 && ts[0].frequencyHz == c.startHz && (forall k | 0 <= k < |ts| :: ts[k].id == k)
    && (forall k | 0 <= k < |ts| - 1 :: ts[k + 1].frequencyHz == ts[k].frequencyHz + c.stepHz)
    && ts[|ts| - 1].frequencyHz <= c.endHz + c.stepHz * 0.001 < ts[|ts| - 1].frequencyHz + c.stepHz
    && forall f: real | c.startHz <= f <= c.endHz :: Covered(c, ts, f)
  }

  ghost predicate Covered(c: Config, ts: seq<Target>, f: real) {
    exists k | 0 <= k < |ts| :: ts[k].frequencyHz <= f < ts[k].frequencyHz + c.stepHz
  }

  lemma DiscoverySweeps(lower: string -> string, c: Config)
    requires c.stepHz > 0.0 && c.startHz <= c.endHz
    ensures Sweeps(c, DiscoveryTargets(lower, c, GridSize(c)))
  {
    hide DetectionBandwidth, Wideband, GridSize, GridPoint;
    var n, ts := GridSize(c), DiscoveryTargets(lower, c, GridSize(c));
    GridStart(c);
    PositiveTimes(c.stepHz, 0.001);
    OnGrid(c, 0);
    OnGrid(c, n - 1);
    OnGrid(c, n);
    GridNext(c, n - 1);
    forall k | 0 <= k < n - 1 ensures ts[k + 1].frequencyHz == ts[k].frequencyHz + c.stepHz { GridNext(c, k); }
    forall f: real | c.startHz <= f <= c.endHz ensures Covered(c, ts, f) {
      var k := GridCovers(lower, c, f);
    }
  }

  lemma GridStart(c: Config)
    ensures GridPoint(c, 0) == c.startHz
  {
  }

  // ---- how wide Discovery listens ----

  predicate LargerOf(w: real, a: real, b: real) { w >= a && w >= b && (w == a || w == b) }

  // Within a tolerance of an odd multiple of 100 kHz.
  ghost predicate NearStation(f: real, tolerance: real) {
    exists n: int :: Near(f, (2 * n + 1) as real * 100000.0, tolerance)
  }

  predicate Near(f: real, g: real, tolerance: real) { -tolerance <= f - g <= tolerance }

  // Where the mode and the decoder are automatic: by the usual channels of the band.
  ghost predicate BandWidth(step: real, f: real, width: real) {
    if 87500000.0 <= f <= 108000000.0 then
      (if NearStation(f, 1.0) || NearStation(f, step / 10.0) then width == 200000.0 else LargerOf(width, step, 25000.0))
    else if 530000.0 <= f <= 1710000.0 then width == 10000.0
    else if 118000000.0 <= f <= 137000000.0 then width == 25000.0
    else if Near(f, 1090000000.0, 1.0) || Near(f, 1090000000.0, 49.0 * step / 100.0) then width == 2000000.0
    else LargerOf(width, step, 25000.0)
  }

  /** The width of a Discovery target: the one set, or that of the mode, of the decoder or of the band, in this order. */
  ghost predicate WidthLaw(lower: string -> string, c: Config, t: Target) {
    var mode, decoder := lower(TrimSpace(c.preferredMode)), CanonicalDecoder(lower, c.preferredDecoder);
    if c.detectionBandwidthHz > 0.0 then t.bandwidthHz == c.detectionBandwidthHz
    else if mode in {"wfm", "fm"} then t.bandwidthHz == 200000.0
    else if mode == "am" then LargerOf(t.bandwidthHz, c.stepHz, 10000.0)
    else if mode in {"nfm", "digital", "p25", "dmr"} then LargerOf(t.bandwidthHz, c.stepHz, 12500.0)
    else if decoder in {"", "auto"} then BandWidth(c.stepHz, t.frequencyHz, t.bandwidthHz)
    else
      var name := CanonicalDecoder(lower, decoder);
      if name == "dump1090" then t.bandwidthHz == 2000000.0
      else if name == "rtl-433" then LargerOf(t.bandwidthHz, c.stepHz, 250000.0)
      else if name in {"ais", "acarsdec"} then LargerOf(t.bandwidthHz, c.stepHz, 25000.0)
      else LargerOf(t.bandwidthHz, c.stepHz, 12500.0)
  }

  lemma ModIs(x: real)
    requires x >= 0.0
    ensures 0.0 <= Mod(x, 200000.0) < 200000.0
    ensures Mod(x, 200000.0) == x - (x / 200000.0).Floor as real * 200000.0
  {
  }

  lemma StationExactly(f: real, tolerance: real)
    requires f >= 0.0
    ensures NearStation(f, tolerance) <==> Distance(Mod(f, 200000.0), 100000.0) <= tolerance
  {
    ModIs(f);
    var n := (f / 200000.0).Floor;
    var d := Distance(Mod(f, 200000.0), 100000.0);
    hide Mod;
    assert (2 * n + 1) as real * 100000.0 == n as real * 200000.0 + 100000.0;
    if d <= tolerance { assert Near(f, (2 * n + 1) as real * 100000.0, tolerance); }
    if m: int :| Near(f, (2 * m + 1) as real * 100000.0, tolerance) {
      assert (2 * m + 1) as real * 100000.0 == m as real * 200000.0 + 100000.0;
      if m > n {
        assert m as real >= n as real + 1.0;
      } else if m < n {
        assert m as real <= n as real - 1.0;
      }
    }
  }

  lemma BandExactly(step: real, f: real)
    ensures var width := if 87500000.0 <= f <= 108000000.0 then
                           if Distance(Mod(f, 200000.0), 100000.0) <= Max(1.0, step * 0.1) then 200000.0 else Max(step, 25000.0)
                         else if 530000.0 <= f <= 1710000.0 then 10000.0
                         else if 118000000.0 <= f <= 137000000.0 then 25000.0
                         else if Distance(f, 1090000000.0) <= Max(1.0, step * 0.49) then 2000000.0
                         else Max(step, 25000.0);
            BandWidth(step, f, width)
  {
    hide Mod, NearStation;
    if f >= 0.0 {
      StationExactly(f, 1.0);
      StationExactly(f, step / 10.0);
    }
  }

  // Every target of a sweep is as wide as it must be, and wideband for dump1090 only.
  ghost predicate Widths(lower: string -> string, c: Config, ts: seq<Target>) {
    forall t | t in ts :: WidthLaw(lower, c, t) && t.wideband == (CanonicalDecoder(lower, TrimSpace(c.preferredDecoder)) == "dump1090")
  }

  lemma DiscoveryWidth(lower: string -> string, c: Config, k: nat)
    ensures WidthLaw(lower, c, DiscoveryTarget(lower, c, k))
  {
    hide Mod, NearStation, BandWidth, CanonicalDecoder, GridPoint;
    BandExactly(c.stepHz, GridPoint(c, k));
  }

  lemma DiscoveryWidths(lower: string -> string, c: Config, count: nat)
    ensures Widths(lower, c, DiscoveryTargets(lower, c, count))
  {
    hide WidthLaw, DetectionBandwidth, CanonicalDecoder, GridPoint;
    forall t | t in DiscoveryTargets(lower, c, count)
      ensures WidthLaw(lower, c, t) && t.wideband == (CanonicalDecoder(lower, TrimSpace(c.preferredDecoder)) == "dump1090")
    {
      var k :| 0 <= k < count && t == DiscoveryTargets(lower, c, count)[k];
      DiscoveryWidth(lower, c, k);
    }
  }

  /** Which configurations are refused. */
  lemma RefusedExactly(lower: string -> string, c: Config, records: seq<Record>)
    ensures var r := JobTargets(lower, c, records);
            && (r.NothingToIdentify? <==> c.identify && forall m | m in records :: !Passes(c, m))
            && (r.BadRange? <==> !c.identify && (c.stepHz <= 0.0 || c.endHz < c.startHz))
            && (r.TooManySteps? <==> !c.identify && c.stepHz > 0.0 && c.startHz <= c.endHz && c.endHz - c.startHz >= 1000000.0 * c.stepHz)
  {
    hide Passes, Eligible, DiscoveryTargets, Filtered, Rank, GridSize;
    if c.identify {
      forall r ensures Eligible(c, r) <==> Passes(c, r) { PassesExactly(c, r); }
      ChosenAreBest(c, records);
      FilteredExactly(c, records);
      if m :| m in records && Eligible(c, m) { assert m in Filtered(c, records); }
      if |Filtered(c, records)| > 0 { assert Filtered(c, records)[0] in Filtered(c, records); }
    } else if c.stepHz > 0.0 && c.startHz <= c.endHz {
      Share(c.endHz - c.startHz, c.stepHz, 1000000.0);
    }
  }

  // ---- the loops ----

  // mapperJobTargets
  method MakeTargets(lower: string -> string, c: Config, records: seq<Record>) returns (r: TargetsResult)
    ensures r == JobTargets(lower, c, records)
    ensures r.Targets? ==> |r.targets| > 0 && Plannable(r.targets)
    ensures r.Targets? && c.identify ==> exists chosen :: Hears(lower, c, records, r.targets, chosen)
    ensures r.Targets? && !c.identify ==> Sweeps(c, r.targets) && Widths(lower, c, r.targets)
    ensures r.NothingToIdentify? <==> c.identify && forall m | m in records :: !Passes(c, m)
    ensures r.BadRange? <==> !c.identify && (c.stepHz <= 0.0 || c.endHz < c.startHz)
    ensures r.TooManySteps? <==> !c.identify && c.stepHz > 0.0 && c.startHz <= c.endHz && c.endHz - c.startHz >= 1000000.0 * c.stepHz
  {
    hide Eligible, Before, Rank, IdentifyTarget, DiscoveryTarget, Plannable, GridSize, Passes, Sweeps, Widths, Hears;
    RefusedExactly(lower, c, records);
    if c.identify {
      var eligible := [];
      for k := 0 to |records|
        invariant eligible == Filtered(c, records[..k])
      {
        assert records[..k + 1][..k] == records[..k];
        if Eligible(c, records[k]) { eligible := eligible + [records[k]]; }
      }
      assert records[..|records|] == records;
      eligible := Rank(c, eligible);
      if c.maximumChannels > 0 && |eligible| > c.maximumChannels { eligible := eligible[..c.maximumChannels]; }
      assert eligible == Chosen(c, records);
      var targets := [];
      for k := 0 to |eligible|
        invariant targets == IdentifyTargets(lower, c, eligible)[..k]
      {
        targets := targets + [IdentifyTarget(lower, c, eligible[k])];
      }
      IdentifyHears(lower, c, records);
      r := if |targets| == 0 then NothingToIdentify else Targets(targets);
    } else if c.stepHz <= 0.0 || c.endHz < c.startHz {
      r := BadRange;
    } else if ((c.endHz - c.startHz) / c.stepHz).Floor + 1 > 1000000 {
      r := TooManySteps;
    } else {
      var targets := [];
      var frequency, k := c.startHz, 0;
      OnGrid(c, 0);
      assert GridPoint(c, 0) == c.startHz;
      while frequency <= c.endHz + c.stepHz * 0.001
        invariant k <= GridSize(c) && frequency == GridPoint(c, k)
        invariant targets == DiscoveryTargets(lower, c, k)
        decreases GridSize(c) - k
      {
        OnGrid(c, k);
        GridNext(c, k);
        targets := targets + [DiscoveryTarget(lower, c, k)];
        frequency, k := frequency + c.stepHz, k + 1;
      }
      OnGrid(c, k);
      DiscoverySweeps(lower, c);
      DiscoveryWidths(lower, c, k);
      r := Targets(targets);
    }
    if r.Targets? { JobTargetsPlannable(lower, c, records); }
  }

  lemma GridNext(c: Config, k: nat)
    ensures GridPoint(c, k + 1) == GridPoint(c, k) + c.stepHz
  {
  }

  /** The plan of a phase, as mapperJobPhase makes it: for every device, rate, limit and configuration, and whatever
      has been mapped, no division of the targets into allowed consecutive groups has fewer captures, and a
      phase with targets has a capture. */
  method PlanPhase(lower: string -> string, job: Job, c: Config, records: seq<Record>)
    returns (r: TargetsResult, batches: seq<Batch>)
    requires JobValid(job)
    ensures r == JobTargets(lower, c, records)
    ensures r.Targets? && c.identify ==> exists chosen :: Hears(lower, c, records, r.targets, chosen)
    ensures r.Targets? && !c.identify ==> Sweeps(c, r.targets) && Widths(lower, c, r.targets)
    ensures r.NothingToIdentify? <==> c.identify && forall m | m in records :: !Passes(c, m)
    ensures r.BadRange? <==> !c.identify && (c.stepHz <= 0.0 || c.endHz < c.startHz)
    ensures r.TooManySteps? <==> !c.identify && c.stepHz > 0.0 && c.startHz <= c.endHz && c.endHz - c.startHz >= 1000000.0 * c.stepHz
    ensures !r.Targets? ==> batches == []
    ensures r.Targets? ==> |batches| > 0 && forall b | b in batches :: Planned(job, b)
    ensures forall b | b in batches :: RateLaw(job, b.targets, b.sampleRate)
    ensures forall b | b in batches && |b.targets| != 1 :: 1 < |b.targets| <= job.limit && Window(b.targets, b.sampleRate)
    ensures r.Targets? ==> var o := StableSort(r.targets);
                           && Concat(GroupsOf(batches)) == o && Sorted(o) && multiset(o) == multiset(r.targets)
                           && forall groups | Division(job, o, groups) :: |batches| <= |groups|
  {
    hide StableSort, Greedy, Planned, Plannable, Division, Concat, RatePinned, JobTargets, Passes, Hears, Sweeps, Widths, Sorted, RateLaw, Window;
    r := MakeTargets(lower, c, records);
    batches := [];
    if r.Targets? {
      batches := TargetBatches(job, r.targets);
      assert Optimal(job, StableSort(r.targets));
      StableSortCorrect(r.targets);
      assert |multiset(StableSort(r.targets))| == |r.targets|;
      assert |batches| == |GroupsOf(batches)|;
      SomeGroup(GroupsOf(batches), StableSort(r.targets));
      forall b | b in batches
        ensures RateLaw(job, b.targets, b.sampleRate) && (|b.targets| != 1 ==> 1 < |b.targets| <= job.limit && Window(b.targets, b.sampleRate))
      {
        PlannedSizes(job, b);
        PlannedRate(job, b);
      }
    }
  }

  lemma SomeGroup(groups: seq<seq<Target>>, ts: seq<Target>)
    requires Concat(groups) == ts && |ts| > 0
    ensures |groups| > 0
  {
  }
}
