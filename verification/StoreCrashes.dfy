/** The event store when its process dies: in the middle of an append or of a batch, and in the middle of the
    startup pass of server/internal/app/media_recovery.go; and the start that follows. */
module StoreCrashes {
  import opened Bytes
  import opened Wrappers
  import opened Journal
  import opened Events
  import opened Media
  import opened PassLaws
  import opened Recoveries
  import opened Store

  // A batch of which only so many bytes reach the base journal, or the update journal, and then a start.
  method Tear(s: EventStore, ghost before: seq<Event>, batch: seq<Event>, cut: nat, toUpdates: bool) returns (ok: bool)
    requires s.Written() && before == (if toUpdates then s.updates else s.base)
    modifies s
    ensures ok && s.Valid()
    ensures var kept := before + batch[..Kept(s.codec, batch, cut)];
            if toUpdates then s.base == WithoutLegacy(old(s.base)) && s.updates == kept
            else s.base == WithoutLegacy(kept) && s.updates == old(s.updates)
  {
    hide Encoded, JsonLike, Kept, WithoutLegacy;
    var c := s.codec;
    var torn := Upto(Encoded(c, batch), cut);
    NothingTorn(c);
    ghost var none: seq<Event> := [];
    assert s.base + none == s.base && s.updates + none == s.updates && none[..Kept(c, none, 0)] == none;
    if toUpdates {
      s.updateFile := s.updateFile + torn;
      ok := s.ReopenAfterCrash([], 0, batch, cut);
    } else {
      s.baseFile := s.baseFile + torn;
      ok := s.ReopenAfterCrash(batch, cut, [], 0);
    }
  }

  lemma NothingTorn(c: Codec<Event>)
    ensures Upto(Encoded(c, []), 0) == [] && Kept(c, [], 0) == 0
  {
  }

  function AllWithdrawn(disk: Disk, merge: (seq<string>, seq<string>) -> seq<string>, es: seq<Event>): (r: seq<Event>)
    ensures |r| == |es| && forall i | 0 <= i < |es| :: r[i].id == es[i].id
  {
    seq(|es|, i requires 0 <= i < |es| => Withdrawn(disk, merge, es[i]))
  }

  // A pass over removed recordings whose batch of updates is cut short, and the start after it.
  method WithdrawThenTear(s: EventStore, disk: Disk, merge: (seq<string>, seq<string>) -> seq<string>, cut: nat) returns (ok: bool)
    requires s.Valid()
    modifies s
    ensures ok && s.Valid() && s.base == WithoutLegacy(old(s.base)) && Adds(old(s.base), old(s.updates), s.updates)
    ensures var u := Changes(old(s.events), AllWithdrawn(disk, merge, old(s.events)));
            s.updates == old(s.updates) + u[..Kept(s.codec, u, cut)]
  {
    hide Replay, Indexed, Encoded, JsonLike, Kept, WithoutLegacy, Changes, AllWithdrawn, Adds;
    ghost var base, updates, es := s.base, s.updates, s.events;
    var batch := Changes(s.events, AllWithdrawn(disk, merge, s.events));
    ok := Tear(s, updates, batch, cut, true);
    ChangesAdded(base, updates, updates + batch, es, AllWithdrawn(disk, merge, es));
    AddsPrefix(base, updates, batch, Kept(s.codec, batch, cut));
  }

  /** Where a startup pass can be cut short: so many bytes into the batch of updates, behind so many recordings and
      bytes into the update of the next one, or so many bytes into the recovered records. */
  datatype CrashPoint = InUpdates(cut: nat) | InWalk(count: nat, cut: nat) | InRecords(cut: nat)

  // The updates of the loop over the events.
  function PassUpdates(x: Tools, disk: Disk, now: int, es: seq<Event>): seq<Event> {
    Changes(es, ReconciledAll(x, disk, LinksOf(disk.recordings), now, es))
  }

  function PassGains(x: Tools, disk: Disk, now: int, t: Table): seq<Event> {
    Gains(x, t.positions.Keys, Noted(x, disk, now, t.events), WalkOrder(disk))
  }

  // How many recovered records, and how many updates of the first batch, such a crash leaves.
  function RecordsLeft(c: Codec<Event>, point: CrashPoint, gains: seq<Event>): (n: nat)
    ensures n <= |gains|
  {
    if point.InRecords? then Kept(c, gains, point.cut) else 0
  }

  function UpdatesLeft(c: Codec<Event>, point: CrashPoint, changes: seq<Event>): (n: nat)
    ensures n <= |changes|
  {
    if point.InUpdates? then Kept(c, changes, point.cut) else |changes|
  }

  /** What a crash in the pass leaves: all earlier records and updates; a prefix of the pass's updates, whole unless
      the crash came in that batch; further updates of old records only if it came later; and of the recovered
      records none, unless it came while they were written, and then a prefix. */
  ghost predicate CutPass(c: Codec<Event>, x: Tools, disk: Disk, now: int, point: CrashPoint, t: Table,
                          base: seq<Event>, updates: seq<Event>, base': seq<Event>, updates': seq<Event>) {
    var changes, gains := PassUpdates(x, disk, now, t.events), PassGains(x, disk, now, t);
    && base' == WithoutLegacy(base + gains[..RecordsLeft(c, point, gains)])
    && updates + changes[..UpdatesLeft(c, point, changes)] <= updates' && Adds(base, updates, updates')
    && (point.InUpdates? ==> updates' == updates + changes[..UpdatesLeft(c, point, changes)])
  }

  lemma CutInUpdates(c: Codec<Event>, x: Tools, disk: Disk, now: int, point: CrashPoint, t: Table,
                     base: seq<Event>, updates: seq<Event>, base': seq<Event>, updates': seq<Event>)
    requires point.InUpdates? && |t.events| == |base| && forall i | 0 <= i < |base| :: t.events[i].id == base[i].id
    requires base' == WithoutLegacy(base)
    requires var u := PassUpdates(x, disk, now, t.events); updates' == updates + u[..Kept(c, u, point.cut)]
    requires forall i | 0 <= i < |base| :: ReconciledAll(x, disk, LinksOf(disk.recordings), now, t.events)[i].id == base[i].id
    ensures CutPass(c, x, disk, now, point, t, base, updates, base', updates')
  {
    hide WithoutLegacy, Kept, Changes, Gains, ReconciledAll, Noted, WalkOrder, Adds;
    var u := PassUpdates(x, disk, now, t.events);
    ChangesAdded(base, updates, updates + u, t.events, ReconciledAll(x, disk, LinksOf(disk.recordings), now, t.events));
    AddsPrefix(base, updates, u, Kept(c, u, point.cut));
    assert base + PassGains(x, disk, now, t)[..0] == base;
  }

  lemma AddsPrefix(base: seq<Event>, updates: seq<Event>, more: seq<Event>, n: nat)
    requires Adds(base, updates, updates + more) && n <= |more|
    ensures Adds(base, updates, updates + more[..n])
  {
    assert (updates + more)[|updates|..] == more && (updates + more[..n])[|updates|..] == more[..n];
  }

  // A startup pass that is cut short, and the start after it.
  method PassThenTear(s: EventStore, x: Tools, disk: Disk, now: int, point: CrashPoint) returns (ok: bool)
    requires s.Valid() && Unique(s.events) && DiskValid(disk) && ToolsValid(x)
    modifies s
    ensures ok && s.Valid()
    ensures CutPass(s.codec, x, disk, now, point, old(Table(s.events, s.positions)), old(s.base), old(s.updates), s.base, s.updates)
  {
    hide Replay, Indexed, Encoded, JsonLike, Kept, WithoutLegacy, Changes, ReconciledAll, DiskValid, ToolsValid, Unique, CutPass, Gains;
    var links, iqFiles, wavFiles := CollectLinks(disk);
    InTable(s.events, s.positions);
    ghost var start, base, updates := Table(s.events, s.positions), s.base, s.updates;
    if point.InUpdates? {
      var changes := PassUpdates(x, disk, now, s.events);
      ok := Tear(s, updates, changes, point.cut, true);
      ReconciledIds(x, disk, now, start.events);
      CutInUpdates(s.codec, x, disk, now, point, start, base, updates, s.base, s.updates);
    } else {
      ok := WalkThenTear(s, x, disk, now, point, links, iqFiles, wavFiles);
    }
  }

  lemma ReconciledIds(x: Tools, disk: Disk, now: int, es: seq<Event>)
    requires DiskValid(disk) && ToolsValid(x)
    ensures forall i | 0 <= i < |es| :: ReconciledAll(x, disk, LinksOf(disk.recordings), now, es)[i].id == es[i].id
  {
    hide Reconciled, DiskValid, ToolsValid;
    forall i | 0 <= i < |es| ensures ReconciledAll(x, disk, LinksOf(disk.recordings), now, es)[i].id == es[i].id {
      PassSettles(x, disk, LinksOf(disk.recordings), now, es[i]);
    }
  }

  // The crash comes behind the loop over the events.
  method WalkThenTear(s: EventStore, x: Tools, disk: Disk, now: int, point: CrashPoint, links: Links,
                      iqFiles: seq<Recording>, wavFiles: seq<Recording>)
    returns (ok: bool)
    requires s.Valid() && Unique(s.events) && DiskValid(disk) && ToolsValid(x) && !point.InUpdates?
    requires PositionsInTable(s.events, s.positions) && LinksValid(disk, links)
    requires iqFiles == OfKind(disk.recordings, false) && wavFiles == OfKind(disk.recordings, true)
    modifies s
    ensures ok && s.Valid()
    ensures CutPass(s.codec, x, disk, now, point, old(Table(s.events, s.positions)), old(s.base), old(s.updates), s.base, s.updates)
  {
    hide Replay, Indexed, Encoded, JsonLike, Kept, WithoutLegacy, Changes, DiskValid, ToolsValid, Unique, CutPass;
    hide LoopLaw, Gains, Noted, WalkOrder, AllSettled, SeenExactly, EventCounts, SeenPaths, ReconciledAll, InStep, Adds, WalkedBoth, Reconciliation;
    ghost var start, base, updates := Table(s.events, s.positions), s.base, s.updates;
    var report, referenced := s.PassOverEvents(x, disk, links, now);
    ghost var settled, updates1 := Table(s.events, s.positions), s.updates;
    ChangesAdded(base, updates, updates1, start.events, settled.events);
    InTable(s.events, s.positions);
    SeenMeans(disk, s.events, referenced);
    MidwayStarts(base, updates1, settled);
    var batch := [];
    if point.InRecords? {
      batch, report := s.PassOverDisk(x, disk, iqFiles, wavFiles, referenced, report);
      AddedAgain(base, updates, updates1, s.updates);
      ghost var updates2 := s.updates;
      RecoveredGains(x, disk, now, start, base, updates2, batch, Table(s.events, s.positions), report);
      AddsOn(base, updates1, updates2);
      ok := Tear(s, base, batch, point.cut, false);
      CutBehind(s.codec, x, disk, now, point, start, base, updates, updates1, s.base, s.updates);
    } else {
      batch := WalkSome(s, x, disk, iqFiles, wavFiles, referenced, report, point.count);
      ghost var updates2 := s.updates;
      AddedAgain(base, updates, updates1, updates2);
      AddsOn(base, updates1, updates2);
      ok := Tear(s, updates2, batch, point.cut, true);
      BatchAdds(base, updates, updates2, batch, Kept(s.codec, batch, point.cut));
      assert base + PassGains(x, disk, now, start)[..0] == base;
      CutBehind(s.codec, x, disk, now, point, start, base, updates, updates1, s.base, s.updates);
    }
  }

  lemma AddsOn(base: seq<Event>, a: seq<Event>, b: seq<Event>)
    requires Adds(base, a, b)
    ensures a <= b
  {
  }

  lemma BatchAdds(base: seq<Event>, updates: seq<Event>, updates2: seq<Event>, batch: seq<Event>, n: nat)
    requires Adds(base, updates, updates2) && n <= |batch| && forall u | u in batch :: u.id in Ids(base)
    ensures Adds(base, updates, updates2 + batch[..n])
  {
    assert (updates2 + batch[..n])[|updates|..] == updates2[|updates|..] + batch[..n];
  }

  lemma RecoveredGains(x: Tools, disk: Disk, now: int, start: Table, base: seq<Event>, updates: seq<Event>, recovered: seq<Event>,
                       t: Table, report: Report)
    requires PositionsInTable(start.events, start.positions) && (t, report) == StartupPass(x, disk, now, start)
    requires ToolsValid(x) && DiskValid(disk) && InStep(base, updates, recovered, t) && |start.events| == |base|
    ensures recovered == PassGains(x, disk, now, start)
  {
    hide Gains, Noted, WalkOrder, StartupPass, ToolsValid, DiskValid, NoneComesBack, NoneHaunted;
    GainedInPass(x, disk, now, start, t, report, []);
  }

  lemma CutBehind(c: Codec<Event>, x: Tools, disk: Disk, now: int, point: CrashPoint, t: Table, base: seq<Event>,
                  updates: seq<Event>, updates1: seq<Event>, base': seq<Event>, updates': seq<Event>)
    requires !point.InUpdates? && updates1 == updates + PassUpdates(x, disk, now, t.events) <= updates' && Adds(base, updates, updates')
    requires var gains := PassGains(x, disk, now, t); base' == WithoutLegacy(base + gains[..RecordsLeft(c, point, gains)])
    ensures CutPass(c, x, disk, now, point, t, base, updates, base', updates')
  {
    hide Adds, PassUpdates, PassGains, WithoutLegacy;
  }

  /** The loops over the recordings up to one of them; the update that is then being written, if there is one. */
  method WalkSome(s: EventStore, x: Tools, disk: Disk, iqFiles: seq<Recording>, wavFiles: seq<Recording>, referenced: set<string>,
                  report: Report, count: nat)
    returns (batch: seq<Event>)
    requires s.Midway([]) && DiskValid(disk) && ToolsValid(x) && AllSettled(x, disk, s.events) && PositionsInTable(s.events, s.positions)
    requires iqFiles == OfKind(disk.recordings, false) && wavFiles == OfKind(disk.recordings, true)
    requires forall p | p in referenced && p in disk.present :: Referenced(s.events, p)
    modifies s`events, s`positions, s`updateFile, s`updates
    ensures s.Written() && Adds(s.base, old(s.updates), s.updates)
    ensures |batch| <= 1 && forall u | u in batch :: u.id in Ids(s.base)
  {
    hide Replay, Indexed, Encoded, JsonLike, InStep, Settled, AllSettled, Handled, ToolsValid, Grew, Fresh, HaveFiles, Referenced, Walked;
    hide Adds, SameButInvalid, Turn, Quiet;
    batch := [];
    NoFiles(disk);
    if count <= |iqFiles| {
      assert forall r | r in iqFiles[..count] :: r in iqFiles;
      var recovered, counts := s.PassOverRecordings(x, disk, iqFiles[..count], false, referenced, [], report);
      if count < |iqFiles| { batch := UnderWay(s, disk, iqFiles[count], referenced, recovered); }
    } else {
      ghost var start, updates := Table(s.events, s.positions), s.updates;
      var recovered, counts := s.PassOverRecordings(x, disk, iqFiles, false, referenced, [], report);
      ghost var middle, updates1 := Table(s.events, s.positions), s.updates;
      StillReferenced(disk, start, middle, referenced);
      var n := if count - |iqFiles| < |wavFiles| then count - |iqFiles| else |wavFiles|;
      assert forall r | r in wavFiles[..n] :: r in wavFiles;
      recovered, counts := s.PassOverRecordings(x, disk, wavFiles[..n], true, referenced, recovered, counts);
      AddedAgain(s.base, updates, updates1, s.updates);
    }
  }

  // The update that relinks an event to this recording.
  method UnderWay(s: EventStore, disk: Disk, r: Recording, referenced: set<string>, ghost recovered: seq<Event>)
    returns (batch: seq<Event>)
    requires s.Midway(recovered) && HaveFiles(disk, recovered) && PositionsInTable(s.events, s.positions)
    ensures |batch| <= 1 && forall u | u in batch :: u.id in Ids(s.base)
    ensures !r.isWav && r.path !in referenced && MetadataUsable(r) && r.metadata.value.eventID in s.positions
            && !HasFile(disk, s.events[s.positions[r.metadata.value.eventID]].iqPath)
       ==> batch == [s.events[s.positions[r.metadata.value.eventID]].(iqPath := Some(r.path))]
  {
    hide InStep, HaveFiles, Encoded, JsonLike;
    batch := [];
    if !r.isWav && r.path !in referenced && MetadataUsable(r) && r.metadata.value.eventID in s.positions {
      var known := s.events[s.positions[r.metadata.value.eventID]];
      if !HasFile(disk, known.iqPath) {
        RelinkInStep(disk, s.base, s.updates, recovered, Table(s.events, s.positions), r.metadata.value.eventID, r.path);
        batch := [known.(iqPath := Some(r.path))];
      }
    }
  }
}
