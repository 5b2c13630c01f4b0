/** What the loops over the recordings in the startup pass of server/internal/app/media_recovery.go do to the events
    there were, and what they add to the report, stated without running them. */
module WalkLaws {
  import opened Wrappers
  import opened Events
  import opened Media
  import opened PassLaws
  import opened Recoveries

  // The metadata of an IQ recording that no event names gives it to event i of the table.
  ghost predicate Claims(referenced: set<string>, t0: Table, r: Recording, i: nat) {
    && !r.isWav && r.path !in referenced && MetadataUsable(r)
    && r.metadata.value.eventID in t0.positions && t0.positions[r.metadata.value.eventID] == i
  }

  ghost predicate Claimed(referenced: set<string>, t0: Table, rs: seq<Recording>, i: nat) {
    exists k | 0 <= k < |rs| :: Claims(referenced, t0, rs[k], i)
  }

  ghost predicate ClaimsFirst(referenced: set<string>, t0: Table, rs: seq<Recording>, k: nat, i: nat)
    requires k < |rs|
  {
    Claims(referenced, t0, rs[k], i) && forall j | 0 <= j < k :: !Claims(referenced, t0, rs[j], i)
  }

  /** An event keeps an IQ file that exists; without one it gets the first recording that claims it, and is otherwise
      left as it is. */
  ghost predicate OldLaw(disk: Disk, referenced: set<string>, rs: seq<Recording>, t0: Table, i: nat, after: Event)
    requires i < |t0.events|
  {
    var e := t0.events[i];
    && (HasFile(disk, e.iqPath) || !Claimed(referenced, t0, rs, i) ==> after == e)
    && (!HasFile(disk, e.iqPath) ==>
          forall k | 0 <= k < |rs| && ClaimsFirst(referenced, t0, rs, k, i) :: after == e.(iqPath := Some(rs[k].path)))
  }

  // A recording without a usable description; a WAV file is not even opened under an identifier that is known by then.
  ghost predicate Unreadable(x: Tools, known: set<string>, referenced: set<string>, rs: seq<Recording>, k: nat)
    requires k < |rs|
  {
    var r := rs[k];
    && r.path !in referenced
    && (if r.isWav then
          r.facts == None && x.recoveredID(r.path) !in known
          && forall j | 0 <= j < k && Able(x, known, referenced, rs[j]) :: OwnID(x, rs[j]) != x.recoveredID(r.path)
        else
          r.metadata == None || r.metadata.value.sampleRateHz <= 0 || r.metadata.value.sampleBytes <= 0
          || r.metadata.value.sampleBytes != r.size)
  }

  ghost function UnreadableOnes(x: Tools, known: set<string>, referenced: set<string>, rs: seq<Recording>): set<nat> {
    set k: nat | k < |rs| && Unreadable(x, known, referenced, rs, k)
  }

  ghost function Changed(t0: Table, t: Table): set<nat>
    requires |t.events| >= |t0.events|
  {
    set i: nat | i < |t0.events| && t.events[i] != t0.events[i]
  }

  /** The table and the report after the loops: old events by OldLaw, the gained ones behind them; recovered, relinked
      and unreadable recordings are counted, and nothing else. */
  ghost predicate WalkLaw(x: Tools, disk: Disk, referenced: set<string>, rs: seq<Recording>, t0: Table, report0: Report, t: Table, report: Report) {
    var known := t0.positions.Keys;
    var gains := Gains(x, known, referenced, rs);
    && |t.events| == |t0.events| + |gains| && t.events[|t0.events|..] == gains
    && (forall i: nat | i < |t0.events| :: OldLaw(disk, referenced, rs, t0, i, t.events[i]))
    && report.recovered == report0.recovered + |gains|
    && report.relinked == report0.relinked + |Changed(t0, t)|
    && report.invalid == report0.invalid + |UnreadableOnes(x, known, referenced, rs)|
    && report.missing == report0.missing && report.requeued == report0.requeued && report.unavailable == report0.unavailable
  }

  // ---- one recording more ----

  lemma ClaimedMore(referenced: set<string>, t0: Table, rs: seq<Recording>, i: nat)
    requires |rs| > 0
    ensures var n := |rs| - 1;
            && (Claimed(referenced, t0, rs, i) <==> Claimed(referenced, t0, rs[..n], i) || Claims(referenced, t0, rs[n], i))
            && (forall k | 0 <= k < n :: ClaimsFirst(referenced, t0, rs, k, i) <==> ClaimsFirst(referenced, t0, rs[..n], k, i))
            && (ClaimsFirst(referenced, t0, rs, n, i) <==> Claims(referenced, t0, rs[n], i) && !Claimed(referenced, t0, rs[..n], i))
  {
    hide Claims;
    var n := |rs| - 1;
    assert forall j | 0 <= j < n :: rs[..n][j] == rs[j];
  }

  lemma {:induction false} SomeFirst(referenced: set<string>, t0: Table, rs: seq<Recording>, i: nat)
    ensures Claimed(referenced, t0, rs, i) ==> exists k | 0 <= k < |rs| :: ClaimsFirst(referenced, t0, rs, k, i)
  {
    hide Claims, Claimed, ClaimsFirst;
    if |rs| > 0 {
      ClaimedMore(referenced, t0, rs, i);
      SomeFirst(referenced, t0, rs[..|rs| - 1], i);
    } else {
      NoneClaimed(referenced, t0, i);
    }
  }

  lemma NoneClaimed(referenced: set<string>, t0: Table, i: nat)
    ensures !Claimed(referenced, t0, [], i)
  {
  }

  // A recording that does not claim the event changes nothing about it.
  lemma OldUnclaimed(disk: Disk, referenced: set<string>, rs: seq<Recording>, t0: Table, i: nat, after: Event)
    requires |rs| > 0 && i < |t0.events| && OldLaw(disk, referenced, rs[..|rs| - 1], t0, i, after)
    requires !Claims(referenced, t0, rs[|rs| - 1], i)
    ensures OldLaw(disk, referenced, rs, t0, i, after)
  {
    hide Claims, Claimed, ClaimsFirst;
    ClaimedMore(referenced, t0, rs, i);
  }

  // One that does gives it its file, unless it has one.
  lemma OldClaimed(disk: Disk, referenced: set<string>, rs: seq<Recording>, t0: Table, i: nat, after: Event)
    requires |rs| > 0 && i < |t0.events| && OldLaw(disk, referenced, rs[..|rs| - 1], t0, i, after)
    requires Claims(referenced, t0, rs[|rs| - 1], i) && forall r | r in rs :: r.path in disk.present
    ensures OldLaw(disk, referenced, rs, t0, i, if HasFile(disk, after.iqPath) then after else after.(iqPath := Some(rs[|rs| - 1].path)))
    ensures !HasFile(disk, after.iqPath) ==> after == t0.events[i]
  {
    hide Claims, Claimed, ClaimsFirst;
    var n := |rs| - 1;
    ClaimedMore(referenced, t0, rs, i);
    SomeFirst(referenced, t0, rs[..n], i);
    if Claimed(referenced, t0, rs[..n], i) && !HasFile(disk, t0.events[i].iqPath) {
      var k :| 0 <= k < n && ClaimsFirst(referenced, t0, rs[..n], k, i);
      assert rs[..n][k] == rs[k] && rs[k] in rs;
    }
  }

  // ---- one turn ----

  // A turn changes at most the event its recording claims, and that one only if it has no file.
  lemma TurnOnOld(x: Tools, disk: Disk, referenced: set<string>, t0: Table, gains: seq<Event>, t: Table, r: Recording)
    requires PositionsInTable(t.events, t.positions) && Gained(disk, t0, gains, !r.isWav, t)
    requires r.path !in referenced
    ensures var t' := Turn(x, disk, t, r);
            && |t'.events| >= |t.events| >= |t0.events|
            && forall i: nat | i < |t0.events| ::
                 t'.events[i] == if Claims(referenced, t0, r, i) && !HasFile(disk, t.events[i].iqPath)
                                 then t.events[i].(iqPath := Some(r.path)) else t.events[i]
  {
    hide Ids;
    if !r.isWav && MetadataUsable(r) && r.metadata.value.eventID in t.positions {
      var id := r.metadata.value.eventID;
      TurnStays(x, disk, t, r);
      if id !in t0.positions { GainedAt(disk, t0, gains, t, id); }
    } else {
      TurnAppends(x, disk, t, r);
    }
  }

  lemma TurnAppends(x: Tools, disk: Disk, t: Table, r: Recording)
    requires PositionsInTable(t.events, t.positions)
    requires !(!r.isWav && MetadataUsable(r) && r.metadata.value.eventID in t.positions)
    ensures t.events <= Turn(x, disk, t, r).events
  {
  }

  // What a turn adds to the report.
  lemma TurnCounts(x: Tools, disk: Disk, referenced: set<string>, t0: Table, rs: seq<Recording>, t: Table, report: Report)
    requires ToolsValid(x) && PositionsInTable(t.events, t.positions) && |rs| > 0 && rs[|rs| - 1].path !in referenced
    requires var init := rs[..|rs| - 1];
             var gains := Gains(x, t0.positions.Keys, referenced, init);
             Gained(disk, t0, gains, !rs[|rs| - 1].isWav, t) && ("" in Ids(gains) ==> "" in t0.positions)
    ensures var r, known := rs[|rs| - 1], t0.positions.Keys;
            var gains, more := Gains(x, known, referenced, rs[..|rs| - 1]), Gains(x, known, referenced, rs);
            var relinks := !r.isWav && MetadataUsable(r) && r.metadata.value.eventID in t0.positions
                           && !HasFile(disk, t.events[t0.positions[r.metadata.value.eventID]].iqPath);
            var c := Counted(x, disk, t, r, report);
            && c.recovered == report.recovered + |more| - |gains|
            && c.relinked == report.relinked + (if relinks then 1 else 0)
            && c.invalid == report.invalid + (if Unreadable(x, known, referenced, rs, |rs| - 1) then 1 else 0)
            && c.missing == report.missing && c.requeued == report.requeued && c.unavailable == report.unavailable
  {
    hide Ids, Gains;
    var r, known := rs[|rs| - 1], t0.positions.Keys;
    var gains := Gains(x, known, referenced, rs[..|rs| - 1]);
    KnownIds(disk, t0, gains, !r.isWav, t);
    GainsNext(x, known, referenced, rs);
    assert forall j | 0 <= j < |rs| - 1 :: rs[..|rs| - 1][j] == rs[j];
    GainedIds(x, known, referenced, rs[..|rs| - 1], OwnID(x, r));
    if !r.isWav && MetadataUsable(r) && r.metadata.value.eventID in t.positions && r.metadata.value.eventID !in known {
      GainedAt(disk, t0, gains, t, r.metadata.value.eventID);
    }
  }

  lemma GainsNext(x: Tools, known: set<string>, referenced: set<string>, rs: seq<Recording>)
    requires |rs| > 0
    ensures var gains, r := Gains(x, known, referenced, rs[..|rs| - 1]), rs[|rs| - 1];
            |Gains(x, known, referenced, rs)| ==
            |gains| + if Able(x, known, referenced, r) && OwnID(x, r) !in Ids(gains) then 1 else 0
  {
    hide Able, OwnID, Ids;
  }

  // ---- the loops obey ----

  // Whether the turn of a recording relinks an event.
  ghost predicate Relinks(disk: Disk, t0: Table, t: Table, r: Recording)
    requires PositionsInTable(t0.events, t0.positions) && |t.events| >= |t0.events|
  {
    && !r.isWav && MetadataUsable(r) && r.metadata.value.eventID in t0.positions
    && !HasFile(disk, t.events[t0.positions[r.metadata.value.eventID]].iqPath)
  }

  lemma ChangedNext(disk: Disk, referenced: set<string>, t0: Table, t: Table, t': Table, r: Recording)
    requires PositionsInTable(t0.events, t0.positions) && |t'.events| >= |t.events| >= |t0.events|
    requires r.path !in referenced && r.path in disk.present
    requires forall i: nat | i < |t0.events| ::
               t'.events[i] == if Claims(referenced, t0, r, i) && !HasFile(disk, t.events[i].iqPath)
                               then t.events[i].(iqPath := Some(r.path)) else t.events[i]
    requires forall i: nat | i < |t0.events| && Claims(referenced, t0, r, i) && !HasFile(disk, t.events[i].iqPath) ::
               t.events[i] == t0.events[i]
    ensures |Changed(t0, t')| == |Changed(t0, t)| + if Relinks(disk, t0, t, r) then 1 else 0
  {
    if Relinks(disk, t0, t, r) {
      var p := t0.positions[r.metadata.value.eventID];
      assert t'.events[p].iqPath == Some(r.path);
      assert Changed(t0, t') == Changed(t0, t) + {p} && p !in Changed(t0, t);
    } else {
      assert Changed(t0, t') == Changed(t0, t);
    }
  }

  lemma UnreadableNext(x: Tools, known: set<string>, referenced: set<string>, rs: seq<Recording>)
    requires |rs| > 0
    ensures var n := |rs| - 1;
            |UnreadableOnes(x, known, referenced, rs)| ==
            |UnreadableOnes(x, known, referenced, rs[..n])| + if Unreadable(x, known, referenced, rs, n) then 1 else 0
  {
    hide Able, OwnID;
    var n := |rs| - 1;
    forall k: nat | k < n ensures Unreadable(x, known, referenced, rs, k) <==> Unreadable(x, known, referenced, rs[..n], k) {
      assert forall j | 0 <= j <= k :: rs[..n][j] == rs[j];
    }
    assert UnreadableOnes(x, known, referenced, rs)
        == UnreadableOnes(x, known, referenced, rs[..n]) + if Unreadable(x, known, referenced, rs, n) then {n} else {};
  }

  lemma OldNext(disk: Disk, referenced: set<string>, rs: seq<Recording>, t0: Table, t: Table, t': Table)
    requires |rs| > 0 && |t'.events| >= |t.events| >= |t0.events| && forall r | r in rs :: r.path in disk.present
    requires forall i: nat | i < |t0.events| :: OldLaw(disk, referenced, rs[..|rs| - 1], t0, i, t.events[i])
    requires forall i: nat | i < |t0.events| ::
               t'.events[i] == if Claims(referenced, t0, rs[|rs| - 1], i) && !HasFile(disk, t.events[i].iqPath)
                               then t.events[i].(iqPath := Some(rs[|rs| - 1].path)) else t.events[i]
    ensures forall i: nat | i < |t0.events| :: OldLaw(disk, referenced, rs, t0, i, t'.events[i])
    ensures forall i: nat | i < |t0.events| && Claims(referenced, t0, rs[|rs| - 1], i) && !HasFile(disk, t.events[i].iqPath) ::
              t.events[i] == t0.events[i]
  {
    hide Claims, OldLaw;
    forall i: nat | i < |t0.events|
      ensures OldLaw(disk, referenced, rs, t0, i, t'.events[i])
      ensures Claims(referenced, t0, rs[|rs| - 1], i) && !HasFile(disk, t.events[i].iqPath) ==> t.events[i] == t0.events[i]
    {
      if Claims(referenced, t0, rs[|rs| - 1], i) {
        OldClaimed(disk, referenced, rs, t0, i, t.events[i]);
      } else {
        OldUnclaimed(disk, referenced, rs, t0, i, t.events[i]);
      }
    }
  }

  // The table and report of the loops over all but the last recording, and what the last one makes of them.
  lemma WalkedNext(x: Tools, disk: Disk, referenced: set<string>, rs: seq<Recording>, t0: Table, report0: Report, t: Table, report: Report)
    requires ToolsValid(x) && PositionsInTable(t0.events, t0.positions) && PositionsInTable(t.events, t.positions) && |rs| > 0
    requires (forall r | r in rs :: r.path in disk.present) && rs[|rs| - 1].path !in referenced
    requires WalkLaw(x, disk, referenced, rs[..|rs| - 1], t0, report0, t, report)
    requires var gains := Gains(x, t0.positions.Keys, referenced, rs[..|rs| - 1]);
             Gained(disk, t0, gains, !rs[|rs| - 1].isWav, t) && ("" in Ids(gains) ==> "" in t0.positions)
    requires var t', gains := Turn(x, disk, t, rs[|rs| - 1]), Gains(x, t0.positions.Keys, referenced, rs);
             |t'.events| == |t0.events| + |gains| && t'.events[|t0.events|..] == gains
    ensures WalkLaw(x, disk, referenced, rs, t0, report0, Turn(x, disk, t, rs[|rs| - 1]), Counted(x, disk, t, rs[|rs| - 1], report))
  {
    hide Ids, Gains, Turn, Counted, OldLaw, Claims, Unreadable, Changed, UnreadableOnes, Gained, ToolsValid;
    var r, t' := rs[|rs| - 1], Turn(x, disk, t, rs[|rs| - 1]);
    assert r in rs;
    TurnOnOld(x, disk, referenced, t0, Gains(x, t0.positions.Keys, referenced, rs[..|rs| - 1]), t, r);
    OldNext(disk, referenced, rs, t0, t, t');
    ChangedNext(disk, referenced, t0, t, t', r);
    UnreadableNext(x, t0.positions.Keys, referenced, rs);
    TurnCounts(x, disk, referenced, t0, rs, t, report);
  }

  lemma PassedOver(x: Tools, disk: Disk, referenced: set<string>, rs: seq<Recording>, t0: Table, report0: Report, t: Table, report: Report)
    requires |rs| > 0 && rs[|rs| - 1].path in referenced && WalkLaw(x, disk, referenced, rs[..|rs| - 1], t0, report0, t, report)
    ensures WalkLaw(x, disk, referenced, rs, t0, report0, t, report)
  {
    hide OldLaw, UnreadableOnes, Changed;
    UnreadableNext(x, t0.positions.Keys, referenced, rs);
    forall i: nat | i < |t0.events| ensures OldLaw(disk, referenced, rs, t0, i, t.events[i]) {
      OldUnclaimed(disk, referenced, rs, t0, i, t.events[i]);
    }
  }

  /** Both loops obey the law. */
  lemma {:induction false} WalkedObeys(x: Tools, disk: Disk, referenced: set<string>, rs: seq<Recording>, t: Table, report: Report)
    requires ToolsValid(x) && PositionsInTable(t.events, t.positions) && KindsInOrder(rs)
    requires forall r | r in rs :: r.path in disk.present
    ensures var (t', report') := Walked(x, disk, referenced, rs, t, report); WalkLaw(x, disk, referenced, rs, t, report, t', report')
  {
    hide Ids, Turn, Counted, ToolsValid, Gained, WalkLaw, Gains;
    if rs == [] {
      NothingWalked(x, disk, referenced, t, report);
    } else {
      var init, r := rs[..|rs| - 1], rs[|rs| - 1];
      assert forall k | 0 <= k < |init| :: init[k] == rs[k];
      assert r in rs && forall f | f in init :: f in rs;
      WalkedObeys(x, disk, referenced, init, t, report);
      var (before, counts) := Walked(x, disk, referenced, init, t, report);
      if r.path in referenced {
        PassedOver(x, disk, referenced, rs, t, report, before, counts);
      } else {
        WalkedGains(x, disk, referenced, init, t, report);
        WalkedGains(x, disk, referenced, rs, t, report);
        assert !r.isWav && |init| > 0 ==> !init[|init| - 1].isWav;
        GainedWav(disk, t, Gains(x, t.positions.Keys, referenced, init), |init| == 0 || !init[|init| - 1].isWav, before);
        GainedBehind(disk, t, Gains(x, t.positions.Keys, referenced, rs), !r.isWav, Turn(x, disk, before, r));
        WalkedNext(x, disk, referenced, rs, t, report, before, counts);
      }
    }
  }

  lemma NothingWalked(x: Tools, disk: Disk, referenced: set<string>, t: Table, report: Report)
    ensures WalkLaw(x, disk, referenced, [], t, report, t, report)
  {
  }

  /** The startup pass as a whole: first every event by PassLaw, then, over the recordings that no event names by
      then, the old events and the new ones by WalkLaw; the report counts both. */
  ghost predicate StartupLaw(x: Tools, disk: Disk, now: int, t0: Table, t: Table, report: Report) {
    exists middle: seq<Event>, counts: Report, seen: set<string> ::
      && LoopLaw(x, disk, now, t0.events, middle, counts)
      && SeenExactly(disk, middle, seen)
      && WalkLaw(x, disk, seen, WalkOrder(disk), Table(middle, t0.positions), counts, t, report)
  }
}
