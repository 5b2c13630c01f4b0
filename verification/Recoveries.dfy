/** Which recordings on disk the startup pass of server/internal/app/media_recovery.go turns into events, stated
    without running its loops. */
module Recoveries {
  import opened Wrappers
  import opened Events
  import opened Media

  // The recordings in the order of the two loops.
  function WalkOrder(disk: Disk): seq<Recording> { OfKind(disk.recordings, false) + OfKind(disk.recordings, true) }

  predicate Usable(r: Recording) { if r.isWav then r.facts.Some? else MetadataUsable(r) }

  function RecoveredEvent(x: Tools, r: Recording): (e: Event)
    requires Usable(r)
    ensures e.id == OwnID(x, r)
  {
    if r.isWav then RecoveredWav(x, r) else RecoveredIQ(x, r)
  }

  /** A recording that no event of the table names or belongs to, with a usable description. */
  predicate Able(x: Tools, known: set<string>, referenced: set<string>, r: Recording) {
    && r.path !in referenced && Usable(r) && OwnID(x, r) !in known
    && (!r.isWav ==> r.metadata.value.eventID !in known)
  }

  /** Of the able recordings with one identifier, the first is recovered. */
  ghost predicate Recovers(x: Tools, known: set<string>, referenced: set<string>, rs: seq<Recording>, k: nat)
    requires k < |rs|
  {
    && Able(x, known, referenced, rs[k])
    && forall j | 0 <= j < k && Able(x, known, referenced, rs[j]) :: OwnID(x, rs[j]) != OwnID(x, rs[k])
  }

  // The events that recordings become, in order.
  function Gains(x: Tools, known: set<string>, referenced: set<string>, rs: seq<Recording>): seq<Event> {
    if rs == [] then []
    else
      var before, r := Gains(x, known, referenced, rs[..|rs| - 1]), rs[|rs| - 1];
      if Able(x, known, referenced, r) && OwnID(x, r) !in Ids(before) then before + [RecoveredEvent(x, r)] else before
  }

  lemma IdsMore(es: seq<Event>, e: Event)
    ensures Ids(es + [e]) == Ids(es) + {e.id}
  {
    assert (es + [e])[|es|] == e;
    forall d | d in es ensures d in es + [e] {}
  }

  lemma {:induction false} GainedIds(x: Tools, known: set<string>, referenced: set<string>, rs: seq<Recording>, id: string)
    ensures id in Ids(Gains(x, known, referenced, rs))
       <==> exists j | 0 <= j < |rs| :: Able(x, known, referenced, rs[j]) && OwnID(x, rs[j]) == id
  {
    hide Able, OwnID, Ids, RecoveredEvent;
    if rs == [] {
      assert Ids([]) == {} by { NoIds(); }
    } else {
      var init, r := rs[..|rs| - 1], rs[|rs| - 1];
      GainedIds(x, known, referenced, init, id);
      assert forall j | 0 <= j < |init| :: rs[j] == init[j];
      if Able(x, known, referenced, r) {
        UsableIfAble(x, known, referenced, r);
        IdsMore(Gains(x, known, referenced, init), RecoveredEvent(x, r));
      }
    }
  }

  lemma NoIds()
    ensures Ids([]) == {}
  {
  }

  lemma UsableIfAble(x: Tools, known: set<string>, referenced: set<string>, r: Recording)
    requires Able(x, known, referenced, r)
    ensures Usable(r)
  {
  }

  lemma {:induction false} GainsExactly(x: Tools, known: set<string>, referenced: set<string>, rs: seq<Recording>, e: Event)
    ensures e in Gains(x, known, referenced, rs)
       <==> exists k | 0 <= k < |rs| :: Recovers(x, known, referenced, rs, k) && e == RecoveredEvent(x, rs[k])
  {
    hide Able, OwnID, Ids, RecoveredEvent, Usable, Recovers;
    if rs != [] {
      var n := |rs| - 1;
      GainsExactly(x, known, referenced, rs[..n], e);
      forall k | 0 <= k < n
        ensures rs[k] == rs[..n][k] && (Recovers(x, known, referenced, rs, k) <==> Recovers(x, known, referenced, rs[..n], k))
      {
        RecoversEarlier(x, known, referenced, rs, k);
      }
      RecoversLast(x, known, referenced, rs);
    }
  }

  /** An event made of a recording: pending, unheard and unnamed, with nothing but where and when it was made, and
      for how long: an IQ sample takes two bytes. */
  ghost predicate DescribedBy(x: Tools, r: Recording, e: Event) {
    && e.recovered && e.labelText == Some("Recovered recording · original event metadata unavailable")
    && e.status == Pending && e.analysisError == "" && e.completedAt == None && e.mediaIssues == []
    && e.callsigns == [] && e.messages == [] && e.transcript == None && e.analysis == None && e.protocolName == None
    && e.noiseDBFS == 0.0 && e.confidence == 0.0
    && (r.isWav ==>
          && e.id == x.recoveredID(r.path) && e.audioPath == Some(r.path) && e.iqPath == None
          && r.facts == Some(WavFacts(e.startedAt, e.durationSeconds, e.frequencyHz)))
    && (!r.isWav ==>
          && e.iqPath == Some(r.path) && e.audioPath == None && r.metadata.Some?
          && var m := r.metadata.value;
             && (m.eventID != "" ==> e.id == m.eventID) && (m.eventID == "" ==> e.id == x.recoveredID(r.path))
             && e.startedAt == m.capturedAt && e.frequencyHz == m.frequencyHz
             && e.durationSeconds * m.sampleRateHz as real == m.sampleBytes as real / 2.0)
  }

  lemma DescribedExactly(x: Tools, r: Recording, e: Event)
    requires Usable(r)
    ensures DescribedBy(x, r, e) <==> e == RecoveredEvent(x, r)
  {
    if !r.isWav {
      var m := r.metadata.value;
      DurationOf(e.durationSeconds, m.sampleBytes as real, m.sampleRateHz as real);
      assert (2 * m.sampleRateHz) as real == 2.0 * m.sampleRateHz as real;
    }
  }

  lemma DurationOf(seconds: real, bytes: real, rate: real)
    requires rate > 0.0
    ensures seconds * rate == bytes / 2.0 <==> seconds == bytes / (2.0 * rate)
  {
    assert bytes / (2.0 * rate) * (2.0 * rate) == bytes;
    if seconds * rate == bytes / 2.0 { assert seconds * (2.0 * rate) == bytes; }
  }

  /** Exactly the recordings that recover describe the events gained. */
  lemma GainsDescribed(x: Tools, known: set<string>, referenced: set<string>, rs: seq<Recording>, e: Event)
    ensures e in Gains(x, known, referenced, rs)
       <==> exists k | 0 <= k < |rs| :: Recovers(x, known, referenced, rs, k) && DescribedBy(x, rs[k], e)
  {
    hide Gains, DescribedBy, OwnID, RecoveredEvent;
    GainsExactly(x, known, referenced, rs, e);
    forall k | 0 <= k < |rs| && Recovers(x, known, referenced, rs, k)
      ensures DescribedBy(x, rs[k], e) <==> e == RecoveredEvent(x, rs[k])
    {
      DescribedExactly(x, rs[k], e);
    }
  }

  lemma RecoversEarlier(x: Tools, known: set<string>, referenced: set<string>, rs: seq<Recording>, k: nat)
    requires k < |rs| - 1
    ensures Recovers(x, known, referenced, rs, k) <==> Recovers(x, known, referenced, rs[..|rs| - 1], k)
  {
    hide Able, OwnID;
    assert forall j | 0 <= j <= k :: rs[j] == rs[..|rs| - 1][j];
  }

  lemma RecoversLast(x: Tools, known: set<string>, referenced: set<string>, rs: seq<Recording>)
    requires |rs| > 0
    ensures var n := |rs| - 1;
            && (Able(x, known, referenced, rs[n]) ==> Usable(rs[n]))
            && (Recovers(x, known, referenced, rs, n) <==>
                Able(x, known, referenced, rs[n]) && OwnID(x, rs[n]) !in Ids(Gains(x, known, referenced, rs[..n])))
  {
    hide OwnID, Ids, Gains;
    var n := |rs| - 1;
    GainedIds(x, known, referenced, rs[..n], OwnID(x, rs[n]));
    hide Able;
    assert forall j | 0 <= j < n :: rs[j] == rs[..n][j];
  }

  // ---- the loops do just that ----

  // Where the table stands once these events were gained: they are behind the others, indexed, and have their files.
  ghost predicate Gained(disk: Disk, t0: Table, gains: seq<Event>, iq: bool, t: Table) {
    && PositionsInTable(t.events, t.positions)
    && |t.events| == |t0.events| + |gains| && t.events[|t0.events|..] == gains
    && t.positions.Keys == t0.positions.Keys + Ids(gains)
    && (forall id | id in t.positions ::
          if id in t0.positions then t.positions[id] == t0.positions[id] < |t0.events| else t.positions[id] >= |t0.events|)
    && (iq ==> forall e | e in gains :: HasFile(disk, e.iqPath))
  }

  lemma TurnGains(x: Tools, disk: Disk, referenced: set<string>, t0: Table, gains: seq<Event>, t: Table, r: Recording)
    requires ToolsValid(x) && PositionsInTable(t0.events, t0.positions) && r.path in disk.present && r.path !in referenced
    requires Gained(disk, t0, gains, !r.isWav, t)
    requires "" in Ids(gains) ==> "" in t0.positions
    ensures var known := t0.positions.Keys;
            var more := if Able(x, known, referenced, r) && OwnID(x, r) !in Ids(gains) then gains + [RecoveredEvent(x, r)] else gains;
            Gained(disk, t0, more, !r.isWav, Turn(x, disk, t, r)) && ("" in Ids(more) ==> "" in t0.positions)
  {
    hide Ids, Gained, RecoveredEvent;
    var known := t0.positions.Keys;
    KnownIds(disk, t0, gains, !r.isWav, t);
    if Able(x, known, referenced, r) && OwnID(x, r) !in Ids(gains) {
      TurnAdds(x, disk, t, r);
      IdsMore(gains, RecoveredEvent(x, r));
      AddGains(x, disk, t0, gains, t, r);
    } else {
      TurnStays(x, disk, t, r);
      if !r.isWav && MetadataUsable(r) && r.metadata.value.eventID in t.positions {
        RelinkGains(disk, t0, gains, t, r.metadata.value.eventID, r.path);
      }
    }
  }

  lemma KnownIds(disk: Disk, t0: Table, gains: seq<Event>, iq: bool, t: Table)
    requires Gained(disk, t0, gains, iq, t)
    ensures PositionsInTable(t.events, t.positions) && t.positions.Keys == t0.positions.Keys + Ids(gains)
  {
  }

  lemma TurnAdds(x: Tools, disk: Disk, t: Table, r: Recording)
    requires PositionsInTable(t.events, t.positions) && Usable(r) && OwnID(x, r) !in t.positions
    requires !r.isWav ==> r.metadata.value.eventID !in t.positions
    ensures Turn(x, disk, t, r) == AddEvent(t, RecoveredEvent(x, r))
  {
  }

  lemma TurnStays(x: Tools, disk: Disk, t: Table, r: Recording)
    requires PositionsInTable(t.events, t.positions)
    requires OwnID(x, r) in t.positions || !Usable(r) || (!r.isWav && r.metadata.value.eventID in t.positions)
    ensures Turn(x, disk, t, r)
         == if !r.isWav && MetadataUsable(r) && r.metadata.value.eventID in t.positions
               && !HasFile(disk, t.events[t.positions[r.metadata.value.eventID]].iqPath)
            then RelinkEvent(t, t.positions[r.metadata.value.eventID], r.path) else t
  {
  }

  lemma AddGains(x: Tools, disk: Disk, t0: Table, gains: seq<Event>, t: Table, r: Recording)
    requires Gained(disk, t0, gains, !r.isWav, t) && Usable(r) && OwnID(x, r) !in t.positions && r.path in disk.present
    ensures Gained(disk, t0, gains + [RecoveredEvent(x, r)], !r.isWav, AddEvent(t, RecoveredEvent(x, r)))
  {
    hide Ids;
    IdsMore(gains, RecoveredEvent(x, r));
  }

  // Only an event of the table at the start can be without its file.
  lemma RelinkGains(disk: Disk, t0: Table, gains: seq<Event>, t: Table, id: string, path: string)
    requires Gained(disk, t0, gains, true, t) && id in t.positions && PositionsInTable(t.events, t.positions)
    ensures !HasFile(disk, t.events[t.positions[id]].iqPath) ==> Gained(disk, t0, gains, true, RelinkEvent(t, t.positions[id], path))
  {
    hide Ids;
    if id !in t0.positions { GainedAt(disk, t0, gains, t, id); }
  }

  // An event found under a gained identifier is a gained one.
  lemma GainedAt(disk: Disk, t0: Table, gains: seq<Event>, t: Table, id: string)
    requires Gained(disk, t0, gains, true, t) && id in t.positions && id !in t0.positions
    ensures HasFile(disk, t.events[t.positions[id]].iqPath)
  {
    var i := t.positions[id];
    assert t.events[i] == gains[i - |t0.events|];
  }

  // IQ recordings first.
  ghost predicate KindsInOrder(rs: seq<Recording>) {
    forall i, j | 0 <= i < j < |rs| :: rs[i].isWav ==> rs[j].isWav
  }

  lemma {:induction false} WalkedGains(x: Tools, disk: Disk, referenced: set<string>, rs: seq<Recording>, t: Table, report: Report)
    requires ToolsValid(x) && PositionsInTable(t.events, t.positions) && KindsInOrder(rs)
    requires forall r | r in rs :: r.path in disk.present
    ensures var gains := Gains(x, t.positions.Keys, referenced, rs);
            && Gained(disk, t, gains, |rs| == 0 || !rs[|rs| - 1].isWav, Walked(x, disk, referenced, rs, t, report).0)
            && ("" in Ids(gains) ==> "" in t.positions)
  {
    hide Ids, Turn, Counted, ToolsValid, Gained;
    if rs == [] {
      NoIds();
      NothingGained(disk, t);
    } else {
      var init, r := rs[..|rs| - 1], rs[|rs| - 1];
      assert forall k | 0 <= k < |init| :: init[k] == rs[k];
      assert r in rs && forall f | f in init :: f in rs;
      WalkedGains(x, disk, referenced, init, t, report);
      var before := Walked(x, disk, referenced, init, t, report).0;
      WalkedOneMore(x, disk, referenced, rs, t, report);
      var gains := Gains(x, t.positions.Keys, referenced, init);
      assert !r.isWav && |init| > 0 ==> !init[|init| - 1].isWav;
      GainedWav(disk, t, gains, |init| == 0 || !init[|init| - 1].isWav, before);
      if r.path !in referenced {
        TurnGains(x, disk, referenced, t, gains, before, r);
      } else {
        assert !Able(x, t.positions.Keys, referenced, r);
      }
    }
  }

  lemma WalkedOneMore(x: Tools, disk: Disk, referenced: set<string>, rs: seq<Recording>, t: Table, report: Report)
    requires PositionsInTable(t.events, t.positions) && rs != []
    ensures var before := Walked(x, disk, referenced, rs[..|rs| - 1], t, report).0;
            Walked(x, disk, referenced, rs, t, report).0 ==
            if rs[|rs| - 1].path in referenced then before else Turn(x, disk, before, rs[|rs| - 1])
  {
    hide Turn, Counted;
  }

  lemma NothingGained(disk: Disk, t: Table)
    requires PositionsInTable(t.events, t.positions)
    ensures Gained(disk, t, [], true, t)
  {
    NoIds();
  }

  lemma GainedWav(disk: Disk, t0: Table, gains: seq<Event>, iq: bool, t: Table)
    requires Gained(disk, t0, gains, iq, t)
    ensures Gained(disk, t0, gains, false, t) && PositionsInTable(t.events, t.positions)
  {
  }

  lemma GainedBehind(disk: Disk, t0: Table, gains: seq<Event>, iq: bool, t: Table)
    requires Gained(disk, t0, gains, iq, t)
    ensures |t.events| == |t0.events| + |gains| && t.events[|t0.events|..] == gains
  {
  }

  // Two walks in a row are one.
  lemma {:induction false} WalkedOn(x: Tools, disk: Disk, referenced: set<string>, a: seq<Recording>, b: seq<Recording>, t: Table, report: Report)
    requires PositionsInTable(t.events, t.positions)
    ensures var (middle, counts) := Walked(x, disk, referenced, a, t, report);
            Walked(x, disk, referenced, b, middle, counts) == Walked(x, disk, referenced, a + b, t, report)
  {
    hide Turn, Counted;
    if b == [] {
      assert a + b == a;
    } else {
      WalkedOn(x, disk, referenced, a, b[..|b| - 1], t, report);
      assert (a + b)[..|a + b| - 1] == a + b[..|b| - 1] && (a + b)[|a + b| - 1] == b[|b| - 1];
    }
  }

  lemma OrderOfWalk(disk: Disk)
    requires DiskValid(disk)
    ensures KindsInOrder(WalkOrder(disk)) && forall r | r in WalkOrder(disk) :: r.path in disk.present
  {
    hide OfKind;
    var iq, rs := OfKind(disk.recordings, false), WalkOrder(disk);
    forall i | 0 <= i < |rs| ensures rs[i].isWav <==> i >= |iq| {
      assert rs[i] in if i < |iq| then iq else OfKind(disk.recordings, true);
    }
  }

  /** No recording that becomes an event has an older update that says something else. */
  ghost predicate NoneComesBack(x: Tools, known: set<string>, referenced: set<string>, updates: seq<Event>, rs: seq<Recording>) {
    forall k | 0 <= k < |rs| && Recovers(x, known, referenced, rs, k) :: !Haunted(updates, RecoveredEvent(x, rs[k]))
  }

  lemma ComesBackExactly(x: Tools, known: set<string>, referenced: set<string>, updates: seq<Event>, rs: seq<Recording>)
    ensures NoneComesBack(x, known, referenced, updates, rs) <==> forall e | e in Gains(x, known, referenced, rs) :: !Haunted(updates, e)
  {
    hide Gains, OwnID, Haunted, RecoveredEvent, Usable;
    if NoneComesBack(x, known, referenced, updates, rs) {
      forall e | e in Gains(x, known, referenced, rs) ensures !Haunted(updates, e) { GainsExactly(x, known, referenced, rs, e); }
    } else {
      var k :| 0 <= k < |rs| && Recovers(x, known, referenced, rs, k) && Haunted(updates, RecoveredEvent(x, rs[k]));
      GainsExactly(x, known, referenced, rs, RecoveredEvent(x, rs[k]));
    }
  }
}
