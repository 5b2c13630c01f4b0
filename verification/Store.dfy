/** The event store of server/internal/app/store.go with its two journals, restart, and the two
    media passes of media_recovery.go.  A missing update journal reads as an empty one. */
module Store {
  import opened Bytes
  import opened Wrappers
  import opened Journal
  import opened Events
  import opened GoText
  import opened Media
  import opened PassLaws
  import opened Recoveries
  import opened WalkLaws

  ghost predicate Indexed(es: seq<Event>, positions: map<string, nat>) {
    forall id: string :: (id in positions <==> Find(es, id) >= 0) && (id in positions ==> positions[id] == Find(es, id))
  }

  // The index has the last position of an identifier, and none exactly where there is none.
  lemma IndexAgrees(es: seq<Event>, positions: map<string, nat>, id: string, i: int)
    requires Indexed(es, positions) && -1 <= i < |es| && (i >= 0 ==> es[i].id == id)
    requires forall k | i < k < |es| :: es[k].id != id
    ensures if i >= 0 then id in positions && positions[id] == i else id !in positions
  {
    if i >= 0 { FindIs(es, i); } else { FindIn(es, id); }
  }

  lemma IndexedAppend(es: seq<Event>, positions: map<string, nat>, e: Event)
    requires Indexed(es, positions)
    ensures Indexed(es + [e], positions[e.id := |es|])
  {
    FindIs(es + [e], |es|);
    forall id: string | id != e.id ensures Find(es + [e], id) == Find(es, id) { FindBefore(es, e, id); }
  }

  lemma IndexedUpdate(es: seq<Event>, positions: map<string, nat>, es': seq<Event>)
    requires Indexed(es, positions) && |es'| == |es| && forall i | 0 <= i < |es| :: es'[i].id == es[i].id
    ensures Indexed(es', positions)
  {
    forall id: string ensures Find(es', id) == Find(es, id) { SameIdsSameFind(es, es', id); }
  }

  lemma ReplayUpdate(base: seq<Event>, updates: seq<Event>, index: nat, changed: Event)
    requires index < |base| && Find(Replay(base, updates), changed.id) == index
    ensures Replay(base, updates + [changed]) == Replay(base, updates)[index := changed]
  {
    ReplayOneMore(base, updates, changed);
  }

  lemma ReplayNone(base: seq<Event>)
    ensures Replay(base, []) == base
  {
  }

  lemma ReplayIndexed(base: seq<Event>, updates: seq<Event>, u: Event, places: map<string, nat>)
    requires Indexed(base, places)
    ensures u.id in places ==> places[u.id] < |base|
    ensures Replay(base, updates + [u])
         == if u.id in places then Replay(base, updates)[places[u.id] := u] else Replay(base, updates)
  {
    SameIdsSameFind(base, Replay(base, updates), u.id);
    ReplayOneMore(base, updates, u);
  }

  // The update journal keeps encoding its log when a record is appended to both.
  lemma EncodedMore(c: Codec<Event>, es: seq<Event>, e: Event)
    ensures Encoded(c, es + [e]) == Encoded(c, es) + Line(c, e)
  {
    EncodedAppend(c, es, [e]);
    EncodedOne(c, e);
  }

  function Joined(seen: seq<Event>, more: Option<seq<Event>>): Option<seq<Event>> {
    match more
    case None => None
    case Some(es) => Some(seen + es)
  }

  lemma JoinedAssociates(seen: seq<Event>, e: Event, more: Option<seq<Event>>)
    ensures Joined(seen, Joined([e], more)) == Joined(seen + [e], more)
  {
    if more.Some? { assert seen + ([e] + more.value) == seen + [e] + more.value; }
  }

  lemma JoinedNothing(more: Option<seq<Event>>)
    ensures Joined([], more) == more
  {
    if more.Some? { assert [] + more.value == more.value; }
  }

  class EventStore {
    const codec: Codec<Event>
    var baseFile: seq<byte>       // events.jsonl
    var updateFile: seq<byte>     // event-updates.jsonl
    var copies: seq<seq<byte>>    // the .interrupted- copies, in the order they were saved
    var events: seq<Event>
    var positions: map<string, nat>
    ghost var base: seq<Event>    // the records of the base journal
    ghost var updates: seq<Event> // the records of the update journal

    ghost predicate Written()
      reads this
    {
      JsonLike(codec) && baseFile == Encoded(codec, base) && updateFile == Encoded(codec, updates)
    }

    /** The files hold the two logs, memory is what replaying them yields, and the index of
        identifiers is right.  A restart of a valid store that holds no legacy record changes nothing. */
    ghost predicate Valid()
      reads this
    {
      Written() && events == Replay(base, updates) && Indexed(events, positions)
    }

    constructor (codec: Codec<Event>)
      requires JsonLike(codec)
      ensures Valid() && this.codec == codec && base == updates == [] && copies == []
    {
      this.codec := codec;
      baseFile, updateFile, copies := [], [], [];
      events, positions := [], map[];
      base, updates := [], [];
    }

    /** Append a new event.  Memory stays what a restart would load exactly when the identifier is safe. */
    method Append(e: Event)
      requires Valid()
      modifies this
      ensures baseFile == old(baseFile) + Line(codec, e) && updateFile == old(updateFile) && copies == old(copies)
      ensures base == old(base) + [e] && updates == old(updates)
      ensures events == old(events) + [e]
      ensures Written() && Indexed(events, positions)
      ensures Valid() <==> AppendSafe(old(base), old(updates), e)
    {
      hide Encoded, Replay, Find, AppendSafe, JsonLike, Indexed;
      EncodedMore(codec, base, e);
      AppendSafeExactly(base, updates, e);
      IndexedAppend(events, positions, e);
      baseFile := baseFile + Line(codec, e);
      positions := positions[e.id := |events|];
      events := events + [e];
      base := base + [e];
    }

    /** The linear search from the newest event, which the index agrees with. */
    method Get(id: string) returns (r: Option<Event>)
      requires Valid()
      ensures r == if id in positions then Some(events[positions[id]]) else None
    {
      hide Replay, Indexed, Encoded, JsonLike;
      var index := |events|;
      while index > 0
        invariant 0 <= index <= |events|
        invariant forall k | index <= k < |events| :: events[k].id != id
      {
        index := index - 1;
        if events[index].id == id {
          IndexAgrees(events, positions, id, index);
          return Some(events[index]);
        }
      }
      IndexAgrees(events, positions, id, -1);
      r := None;
    }

    /** Every Update method has this shape: change one event in memory, then append the whole of it. */
    method Update(id: string, change: Event -> Event) returns (found: bool)
      requires Valid() && forall e: Event :: change(e).id == e.id
      modifies this
      ensures Valid() && base == old(base) && baseFile == old(baseFile) && positions == old(positions) && copies == old(copies)
      ensures found <==> id in positions
      ensures found ==> events == old(events)[positions[id] := change(old(events)[positions[id]])]
      ensures found ==> updates == old(updates) + [events[positions[id]]]
      ensures !found ==> events == old(events) && updates == old(updates) && updateFile == old(updateFile)
    {
      if id !in positions { return false; }
      var index := positions[id];
      var changed := change(events[index]);
      WriteUpdate(index, changed);
      found := true;
    }

    // persistUpdateLocked, together with the assignment to s.events[index] before it
    method WriteUpdate(index: nat, changed: Event)
      requires Valid() && index < |events| && changed.id == events[index].id && Find(events, changed.id) == index
      modifies this
      ensures Valid() && base == old(base) && baseFile == old(baseFile) && positions == old(positions) && copies == old(copies)
      ensures events == old(events)[index := changed] && updates == old(updates) + [changed]
    {
      hide Encoded, Replay, Find, JsonLike, Indexed;
      ReplayUpdate(base, updates, index, changed);
      EncodedMore(codec, updates, changed);
      IndexedUpdate(events, positions, events[index := changed]);
      events := events[index := changed];
      updateFile := updateFile + Line(codec, changed);
      updates := updates + [changed];
    }

    method UpdateAnalysisStatus(id: string, status: Status, message: string, now: int) returns (found: bool)
      requires Valid()
      modifies this
      ensures Valid() && base == old(base) && positions == old(positions)
      ensures found <==> id in positions
      ensures found ==> var e := old(events)[positions[id]];
                        events == old(events)[positions[id] := e.(status := status, analysisError := TrimSpace(message),
                          completedAt := if status == Complete || status == Error then Some(now) else None)]
      ensures found ==> updates == old(updates) + [events[positions[id]]]
      ensures !found ==> events == old(events) && updates == old(updates) && updateFile == old(updateFile)
    {
      found := Update(id, (e: Event) => e.(status := status, analysisError := TrimSpace(message),
                                           completedAt := if status == Complete || status == Error then Some(now) else None));
    }

    // ---- restart ----

    // repairTornEventTail on one file: the copy is saved before the file is cut.
    method RepairTail(file: seq<byte>) returns (fixed: seq<byte>)
      modifies this`copies
      ensures fixed == Repair(codec, file).file
      ensures copies == old(copies) + (match Repair(codec, file).copy case None => [] case Some(c) => [c])
    {
      if file == [] || file[|file| - 1] == NEWLINE { return file; }
      var boundary := LineStart(file);
      if codec.decode(file[boundary..]).Some? { return file + [NEWLINE]; }
      copies := copies + [file];
      fixed := file[..boundary];
    }

    // Scan a file record by record.
    method Scan(file: seq<byte>) returns (records: Option<seq<Event>>)
      ensures records == Load(codec, file)
    {
      var rest, seen := file, [];
      JoinedNothing(Load(codec, file));
      while rest != []
        invariant Load(codec, file) == Joined(seen, Load(codec, rest))
        decreases |rest|
      {
        var event := codec.decode(DropReturn(rest[..FirstNewline(rest)]));
        if event.None? { return None; }
        rest := AfterLine(rest);
        JoinedAssociates(seen, event.value, Load(codec, rest));
        seen := seen + [event.value];
      }
      assert seen + [] == seen;
      records := Some(seen);
    }

    // What a restart reads from a file.
    function Loaded(file: seq<byte>): Option<seq<Event>> { Load(codec, Repair(codec, file).file) }

    // The test on every record of the base journal as it is read.
    static method KeepReal(records: seq<Event>) returns (kept: seq<Event>)
      ensures kept == WithoutLegacy(records)
    {
      kept := [];
      for k := 0 to |records|
        invariant kept == WithoutLegacy(records[..k])
      {
        assert records[..k + 1][..k] == records[..k];
        if !Legacy(records[k]) { kept := kept + [records[k]]; }
      }
      assert records[..|records|] == records;
    }

    /** NewEventStore on the files as they are.  It succeeds exactly when every line of both repaired
        files decodes; the table is then the base records that are not legacy, with the updates replayed. */
    method Reopen() returns (ok: bool)
      modifies this
      ensures ok <==> Loaded(old(baseFile)).Some? && Loaded(old(updateFile)).Some?
      ensures ok ==> base == WithoutLegacy(Loaded(old(baseFile)).value) && updates == Loaded(old(updateFile)).value
      ensures ok ==> Rid(Loaded(old(baseFile)).value, base)
      ensures ok ==> events == Replay(base, updates) && Indexed(events, positions)
      ensures ok ==> updateFile == Repair(codec, old(updateFile)).file
      ensures ok ==> baseFile == if base == Loaded(old(baseFile)).value then Repair(codec, old(baseFile)).file
                                 else Encoded(codec, base)
      ensures old(copies) <= copies
    {
      hide Encoded, Find, Load, Repair, JsonLike, Indexed, Replay, Rid, WithoutLegacy;
      baseFile := RepairTail(baseFile);
      var records := Scan(baseFile);
      if records.None? { return false; }
      events := KeepReal(records.value);
      WithoutLegacyIsRid(records.value);
      if |events| < |records.value| { baseFile := Encoded(codec, events); }
      base := events;
      updateFile := RepairTail(updateFile);
      var changes := Scan(updateFile);
      if changes.None? { return false; }
      LoadUpdates(changes.value);
      positions := PositionsOf(events);
      ok := true;
    }

    // The replay loop of loadUpdates.
    method LoadUpdates(changes: seq<Event>)
      requires events == base
      modifies this`events, this`updates
      ensures updates == changes && events == Replay(base, updates)
    {
      hide Find, Replay, Indexed;
      var places := PositionsOf(events);
      ReplayNone(base);
      assert changes[..0] == [];
      for line := 0 to |changes|
        invariant events == Replay(base, changes[..line])
      {
        var event := changes[line];
        ReplayIndexed(base, changes[..line], event, places);
        assert changes[..line + 1] == changes[..line] + [event];
        if event.id in places { events := events[places[event.id] := event]; }
      }
      assert changes[..|changes|] == changes;
      updates := changes;
    }

    static method PositionsOf(es: seq<Event>) returns (places: map<string, nat>)
      ensures Indexed(es, places)
    {
      places := map[];
      for index := 0 to |es|
        invariant Indexed(es[..index], places)
      {
        IndexedAppend(es[..index], places, es[index]);
        assert es[..index + 1] == es[..index] + [es[index]];
        places := places[es[index].id := index];
      }
      assert es[..|es|] == es;
    }

    /** Restart after a crash that cut the last append to each file at any byte: the restart succeeds
        and the store is valid, holding every completed record and, of the interrupted appends, a
        whole-record prefix; memory loses nothing but legacy records. */
    method ReopenAfterCrash(ghost newEvents: seq<Event>, ghost cut: nat, ghost newUpdates: seq<Event>, ghost cut': nat)
      returns (ok: bool)
      requires JsonLike(codec)
      requires baseFile == Encoded(codec, base) + Upto(Encoded(codec, newEvents), cut)
      requires updateFile == Encoded(codec, updates) + Upto(Encoded(codec, newUpdates), cut')
      modifies this
      ensures ok && Valid()
      ensures base == WithoutLegacy(old(base) + newEvents[..Kept(codec, newEvents, cut)])
      ensures updates == old(updates) + newUpdates[..Kept(codec, newUpdates, cut')]
    {
      ghost var b, u := base + newEvents[..Kept(codec, newEvents, cut)], updates + newUpdates[..Kept(codec, newUpdates, cut')];
      CrashTracksLog(codec, base, newEvents, cut);
      CrashTracksLog(codec, updates, newUpdates, cut');
      LoadEncoded(codec, b);
      LoadEncoded(codec, u);
      ok := Reopen();
    }

    /** A restart of a valid store gives back the same table exactly when no base record is legacy. */
    method ReopenUnchanged() returns (ok: bool)
      requires Valid()
      modifies this
      ensures ok && Valid()
      ensures base == WithoutLegacy(old(base)) && updates == old(updates)
      ensures events == old(events) <==> forall e | e in old(base) :: !Legacy(e)
    {
      assert base + [] == base && updates + [] == updates;
      assert Encoded(codec, base) + Upto(Encoded(codec, []), 0) == baseFile;
      assert Encoded(codec, updates) + Upto(Encoded(codec, []), 0) == updateFile;
      ok := ReopenAfterCrash([], 0, [], 0);
    }

    // ---- the passes over the media ----

    // Put a changed event in place while its update waits to be written with the batch.
    method Replace(index: nat, changed: Event, ghost waiting: seq<Event>)
      requires events == Replay(base, updates + waiting) && Indexed(events, positions) && Unique(events)
      requires index < |events| && changed.id == events[index].id
      modifies this`events
      ensures events == old(events)[index := changed] && events == Replay(base, updates + (waiting + [changed]))
      ensures Indexed(events, positions) && Unique(events)
    {
      hide Find, Replay, Indexed;
      FindIs(events, index);
      ReplayUpdate(base, updates + waiting, index, changed);
      assert updates + waiting + [changed] == updates + (waiting + [changed]);
      IndexedUpdate(events, positions, events[index := changed]);
      events := events[index := changed];
    }

    // appendDurableJSONBatch on the update journal
    method WriteUpdates(waiting: seq<Event>)
      requires updateFile == Encoded(codec, updates)
      modifies this`updateFile, this`updates
      ensures updates == old(updates) + waiting && updateFile == Encoded(codec, updates)
    {
      EncodedAppend(codec, updates, waiting);
      updateFile := updateFile + Encoded(codec, waiting);
      updates := updates + waiting;
    }

    /** Events whose recordings are gone lose the paths at once; each changed event is one update, in
        the order of the table, and is counted. */
    method ReconcileRemovedMedia(disk: Disk, merge: (seq<string>, seq<string>) -> seq<string>) returns (updated: nat)
      requires Valid() && Unique(events)
      modifies this
      ensures Valid() && Unique(events) && base == old(base) && positions == old(positions) && |events| == |old(events)|
      ensures forall i | 0 <= i < |events| :: events[i] == Withdrawn(disk, merge, old(events)[i])
      ensures forall i | 0 <= i < |events| :: RemovalLaw(disk, merge, old(events)[i], events[i])
      ensures updates == old(updates) + Changes(old(events), events) && updated == |Changes(old(events), events)|
    {
      hide Replay, Indexed, Encoded, Withdrawn, RemovalLaw, JsonLike, Changes, Unique;
      updated := 0;
      var waiting: seq<Event> := [];
      assert updates + [] == updates;
      NoChanges(events, events);
      for index := 0 to |events|
        invariant |events| == |old(events)| && |waiting| == updated
        invariant events == Replay(base, updates + waiting) && Indexed(events, positions) && Unique(events)
        invariant base == old(base) && updates == old(updates) && positions == old(positions)
        invariant baseFile == old(baseFile) && updateFile == old(updateFile)
        invariant forall i | 0 <= i < index :: events[i] == Withdrawn(disk, merge, old(events)[i])
        invariant forall i | index <= i < |events| :: events[i] == old(events)[i]
        invariant waiting == Changes(old(events)[..index], events[..index])
      {
        ghost var before := events[..index];
        var event := Withdrawn(disk, merge, events[index]);
        if event != events[index] {
          Replace(index, event, waiting);
          waiting := waiting + [event];
          updated := updated + 1;
        }
        assert events[..index] == before;
        ChangesNext(old(events), events, index);
      }
      assert old(events)[..|events|] == old(events) && events[..|events|] == events;
      WriteUpdates(waiting);
      forall i | 0 <= i < |events| ensures RemovalLaw(disk, merge, old(events)[i], events[i]) {
        WithdrawnObeys(disk, merge, old(events)[i]);
      }
    }

    // The first loop of ReconcileMedia: one turn for every event, then one batch of updates.
    method PassOverEvents(x: Tools, disk: Disk, links: Links, now: int) returns (report: Report, referenced: set<string>)
      requires Valid() && Unique(events) && DiskValid(disk) && ToolsValid(x) && LinksValid(disk, links)
      modifies this
      ensures Valid() && Unique(events) && base == old(base) && positions == old(positions)
      ensures events == ReconciledAll(x, disk, links, now, old(events))
      ensures updates == old(updates) + Changes(old(events), events)
      ensures report == EventCounts(x, disk, links, now, old(events)) && referenced == SeenPaths(x, disk, links, now, old(events))
      ensures AllSettled(x, disk, events) && SeenExactly(disk, events, referenced)
      ensures LoopLaw(x, disk, now, old(events), events, report)
    {
      hide LoopLaw, Replay, Indexed, Encoded, Reconciled, JsonLike, DiskValid, ToolsValid, LinksValid, Passed, Unique;
      hide LinksOf, ReconciledAll, EventCounts, SeenPaths, Changes;
      report, referenced := Report(0, 0, 0, 0, 0, 0), {};
      var waiting: seq<Event> := [];
      assert updates + [] == updates;
      PassedNone(x, disk, links, now, events);
      for index := 0 to |events|
        invariant |events| == |old(events)|
        invariant events == Replay(base, updates + waiting) && Indexed(events, positions) && Unique(events)
        invariant base == old(base) && updates == old(updates) && positions == old(positions)
        invariant baseFile == old(baseFile) && updateFile == old(updateFile)
        invariant Passed(x, disk, links, now, old(events), events, waiting, report, referenced, index)
      {
        var o := Reconciled(x, disk, links, now, events[index]);
        PassedNext(x, disk, links, now, old(events), events, waiting, report, referenced, index);
        report := report.(relinked := report.relinked + o.relinked, missing := report.missing + o.missing,
                          requeued := report.requeued + o.requeued, unavailable := report.unavailable + o.unavailable);
        referenced := referenced + o.seen;
        ghost var was, waited := events, waiting;
        if o.event != events[index] {
          Replace(index, o.event, waiting);
          waiting := waiting + [o.event];
        }
        assert events == was[index := o.event];
        assert waiting == waited + (if o.event != was[index] then [o.event] else []);
      }
      PassedAll(x, disk, links, now, old(events), events, waiting, report, referenced);
      LinksAre(disk, links);
      LoopObeys(x, disk, now, old(events));
      WriteUpdates(waiting);
    }

    /** Between the first loop and the last write of ReconcileMedia: recovered events are in memory and
        indexed, and wait to be written to the base journal. */
    ghost predicate Midway(recovered: seq<Event>)
      reads this
    {
      Written() && InStep(base, updates, recovered, Table(events, positions))
    }

    // One turn over a recording that no event referenced after the first loop.
    method Take(x: Tools, disk: Disk, r: Recording, recovered: seq<Event>, report: Report)
      returns (recovered': seq<Event>, report': Report)
      requires Midway(recovered) && PositionsInTable(events, positions) && r.path in disk.present
      requires !r.isWav ==> HaveFiles(disk, recovered)
      modifies this`events, this`positions, this`updateFile, this`updates
      ensures Midway(recovered') && PositionsInTable(events, positions)
      ensures Table(events, positions) == old(Turn(x, disk, Table(events, positions), r))
      ensures report' == old(Counted(x, disk, Table(events, positions), r, report))
      ensures !r.isWav ==> HaveFiles(disk, recovered')
      ensures recovered <= recovered' && |recovered'| <= |recovered| + 1
      ensures |recovered'| > |recovered| ==> Fresh(x, [r], recovered'[|recovered|], old(positions))
      ensures Adds(base, old(updates), updates)
    {
      hide Replay, Encoded, JsonLike, Indexed, InStep, Find, Legacy, Fresh, Adds, HaveFiles, RecoveredIQ, RecoveredWav;
      NothingAdded(base, updates);
      recovered', report' := recovered, report;
      var event;
      if r.isWav {
        if x.recoveredID(r.path) in positions { return; }
        if r.facts.None? {
          report' := report.(invalid := report.invalid + 1);
          return;
        }
        event := RecoveredWav(x, r);
      } else {
        if !MetadataUsable(r) {
          report' := report.(invalid := report.invalid + 1);
          return;
        }
        var meta := r.metadata.value;
        if meta.eventID in positions {
          var index := positions[meta.eventID];
          var known := events[index];
          if !HasFile(disk, known.iqPath) {
            var relinked := known.(iqPath := Some(r.path));
            RelinkInStep(disk, base, updates, recovered, Table(events, positions), meta.eventID, r.path);
            OneAdded(base, updates, relinked);
            EncodedMore(codec, updates, relinked);
            updateFile := updateFile + Line(codec, relinked);
            updates := updates + [relinked];
            events := events[index := relinked];
            report' := report.(relinked := report.relinked + 1);
          }
          return;
        }
        event := RecoveredIQ(x, r);
      }
      // recoverEvent
      RecoveredIs(x, r, event);
      if event.id in positions { return; }
      RecoveredFresh(x, r, event, positions);
      if !r.isWav { OneMoreFile(disk, recovered, event); }
      AddInStep(base, updates, recovered, Table(events, positions), event);
      positions := positions[event.id := |events|];
      events := events + [event];
      recovered' := recovered + [event];
      report' := report.(recovered := report.recovered + 1);
    }

    // One of the two loops over the recordings found on disk.
    method PassOverRecordings(x: Tools, disk: Disk, recordings: seq<Recording>, ghost wav: bool, referenced: set<string>,
                              recovered: seq<Event>, report: Report)
      returns (recovered': seq<Event>, report': Report)
      requires Midway(recovered) && ToolsValid(x) && AllSettled(x, disk, events) && PositionsInTable(events, positions)
      requires forall r | r in recordings :: r.path in disk.present && r.isWav == wav
      requires !wav ==> HaveFiles(disk, recovered)
      requires forall p | p in referenced && p in disk.present :: Referenced(events, p)
      modifies this`events, this`positions, this`updateFile, this`updates
      ensures Midway(recovered') && AllSettled(x, disk, events) && PositionsInTable(events, positions)
      ensures (Table(events, positions), report') == old(Walked(x, disk, referenced, recordings, Table(events, positions), report))
      ensures Grew(disk, old(events), old(positions), events, positions)
      ensures forall r | r in recordings :: Handled(x, disk, events, positions, r)
      ensures recovered <= recovered' && Adds(base, old(updates), updates) && (!wav ==> HaveFiles(disk, recovered'))
      ensures forall k | |recovered| <= k < |recovered'| :: Fresh(x, recordings, recovered'[k], old(positions))
      ensures (forall r | r in recordings :: old(Quiet(x, disk, events, positions, referenced, r)))
          ==> events == old(events) && positions == old(positions) && SameButInvalid(report, report')
    {
      hide Replay, Encoded, JsonLike, Indexed, Find, Settled, AllSettled, Turn, Handled, Midway, ToolsValid, Grew, SameButInvalid;
      hide Referenced, Counted, HaveFiles, Fresh, Adds;
      recovered', report' := recovered, report;
      ghost var start := Table(events, positions);
      NothingAdded(base, updates);
      GrewNot(disk, start, report);
      for k := 0 to |recordings|
        invariant Midway(recovered') && AllSettled(x, disk, events) && PositionsInTable(events, positions)
        invariant (Table(events, positions), report') == Walked(x, disk, referenced, recordings[..k], start, report)
        invariant Grew(disk, start.events, start.positions, events, positions)
        invariant forall r | r in recordings[..k] :: Handled(x, disk, events, positions, r)
        invariant recovered <= recovered' && Adds(base, old(updates), updates) && (!wav ==> HaveFiles(disk, recovered'))
        invariant forall i | |recovered| <= i < |recovered'| :: Fresh(x, recordings, recovered'[i], start.positions)
        invariant (forall r | r in recordings :: Quiet(x, disk, start.events, start.positions, referenced, r))
               ==> events == start.events && positions == start.positions && SameButInvalid(report, report')
      {
        var r := recordings[k];
        ghost var t, counts, had, written := Table(events, positions), report', recovered', updates;
        assert recordings[..k + 1] == recordings[..k] + [r];
        assert recordings[..k + 1][..k] == recordings[..k];
        if r.path !in referenced {
          TurnHandles(x, disk, t, r);
          TurnKeepsSettled(x, disk, t, r);
          recovered', report' := Take(x, disk, r, recovered', report');
          GrewAgain(disk, start, t, Table(events, positions));
          AddedAgain(base, old(updates), written, updates);
          if |recovered'| > |had| { FreshEarlier(x, disk, r, recordings, recovered'[|had|], start, t); }
          HandledAllStay(x, disk, t.events, t.positions, events, positions, recordings[..k]);
          if Quiet(x, disk, t.events, t.positions, referenced, r) {
            assert Turn(x, disk, t, r) == t;
            IdleCount(x, disk, t, r, counts);
          }
          SameAgain(report, counts, report');
        } else {
          ReferencedIsHandled(x, disk, start, t, r);
        }
      }
      assert recordings[..|recordings|] == recordings;
    }

    // Both loops over the recordings.
    method PassOverDisk(x: Tools, disk: Disk, iqFiles: seq<Recording>, wavFiles: seq<Recording>, referenced: set<string>, report: Report)
      returns (recovered: seq<Event>, report': Report)
      requires Midway([]) && DiskValid(disk) && ToolsValid(x) && AllSettled(x, disk, events) && PositionsInTable(events, positions)
      requires iqFiles == OfKind(disk.recordings, false) && wavFiles == OfKind(disk.recordings, true)
      requires forall p | p in referenced && p in disk.present :: Referenced(events, p)
      modifies this`events, this`positions, this`updateFile, this`updates
      ensures Midway(recovered) && Reconciliation(x, disk, events, positions) && Adds(base, old(updates), updates)
      ensures (Table(events, positions), report')
           == old(WalkedBoth(x, disk, referenced, iqFiles, wavFiles, Table(events, positions), report))
      ensures forall k | 0 <= k < |recovered| :: Fresh(x, disk.recordings, recovered[k], old(positions))
      ensures (forall r | r in disk.recordings :: old(Quiet(x, disk, events, positions, referenced, r)))
          ==> events == old(events) && positions == old(positions) && SameButInvalid(report, report')
    {
      hide Midway, Settled, AllSettled, Handled, ToolsValid, Grew, Fresh, HaveFiles, Referenced, Walked, Adds, SameButInvalid;
      ghost var start, updates1 := Table(events, positions), updates;
      NoFiles(disk);
      recovered, report' := PassOverRecordings(x, disk, iqFiles, false, referenced, [], report);
      ghost var middle, count, updates2, counts := Table(events, positions), |recovered|, updates, report';
      StillReferenced(disk, start, middle, referenced);
      recovered, report' := PassOverRecordings(x, disk, wavFiles, true, referenced, recovered, report');
      AddedAgain(base, updates1, updates2, updates);
      HandledAllStay(x, disk, middle.events, middle.positions, events, positions, iqFiles);
      AllHandled(x, disk, Table(events, positions), iqFiles, wavFiles);
      FreshAll(x, disk, iqFiles, wavFiles, recovered, count, start, middle);
      SameAgain(report, counts, report');
    }

    /** ReconcileMedia.  The events it recovers are those of the recordings on disk, the first for each identifier;
        memory stays what a restart would load exactly when none of them has an earlier update that says
        something else; Restored says what the pass does to the table and the journals. */
    method ReconcileMedia(x: Tools, disk: Disk, now: int) returns (report: Report)
      requires Valid() && Unique(events) && DiskValid(disk) && ToolsValid(x)
      modifies this
      ensures Written()
      ensures Restored(x, disk, now, old(base), old(updates), old(Table(events, positions)), base, updates, Table(events, positions), report)
      ensures StartupLaw(x, disk, now, old(Table(events, positions)), Table(events, positions), report)
      ensures base[|old(base)|..] == Gains(x, old(positions).Keys, Noted(x, disk, now, old(events)), WalkOrder(disk))
      ensures Valid() <==> NoneComesBack(x, old(positions).Keys, Noted(x, disk, now, old(events)), old(updates), WalkOrder(disk))
      ensures Valid() <==> NoneHaunted(old(updates), base[|old(base)|..])
    {
      hide Replay, Encoded, JsonLike, Indexed, Find, Settled, AllSettled, Handled, ToolsValid, Reconciled, Restored, Unique;
      hide StartupLaw, LoopLaw, NoneHaunted, NoneComesBack, Noted, Gains, WalkOrder, Fresh, InStep, Referenced, SeenExactly, EventCounts, SeenPaths, WalkedBoth, Adds, Changes, Reconciliation;
      var links, iqFiles, wavFiles := CollectLinks(disk);
      InTable(events, positions);
      ghost var start, updates0 := Table(events, positions), updates;
      var referenced;
      report, referenced := PassOverEvents(x, disk, links, now);
      ghost var settled, updates1, counts := Table(events, positions), updates, report;
      ChangesAdded(base, updates0, updates, start.events, events);
      InTable(events, positions);
      SeenMeans(disk, settled.events, referenced);
      MidwayStarts(base, updates, settled);
      var recovered;
      recovered, report := PassOverDisk(x, disk, iqFiles, wavFiles, referenced, report);
      AddedAgain(base, updates0, updates1, updates);
      QuietWhole(x, disk, links, now, start, settled, referenced, counts, report, events);
      InStepEnds(base, updates0, updates, recovered, Table(events, positions));
      RestoredBy(x, disk, now, base, updates0, start, recovered, updates, Table(events, positions), report);
      GainedInPass(x, disk, now, start, Table(events, positions), report, updates0);
      PassObeys(x, disk, now, start, settled, counts, referenced, Table(events, positions), report);
      EncodedAppend(codec, base, recovered);
      assert (base + recovered)[|base|..] == recovered;
      baseFile := baseFile + Encoded(codec, recovered);
      base := base + recovered;
    }
  }

  ghost predicate NoneHaunted(updates: seq<Event>, recovered: seq<Event>) {
    forall e | e in recovered :: !Haunted(updates, e)
  }

  /** What the startup pass does: the table and the report are those of its three loops; afterwards every event is
      settled and every recording handled; what the table gained is what the base journal gained, each new record
      from a recording and under a new identifier; the new updates are about old records; and on a table
      that already was like that it recovers, relinks, loses and requeues nothing and changes no path, status,
      transcript or evidence. */
  ghost predicate Restored(x: Tools, disk: Disk, now: int, base0: seq<Event>, updates0: seq<Event>, t0: Table,
                           base: seq<Event>, updates: seq<Event>, t: Table, report: Report) {
    && PositionsInTable(t0.events, t0.positions) && (t, report) == StartupPass(x, disk, now, t0)
    && Reconciliation(x, disk, t.events, t.positions) && Indexed(t.events, t.positions) && Unique(t.events)
    && |t.events| == |base| && (forall i | 0 <= i < |base| :: t.events[i].id == base[i].id)
    && base0 <= base && base[|base0|..] == t.events[|base0|..] && Adds(base0, updates0, updates)
    && (forall e | e in base[|base0|..] :: Fresh(x, disk.recordings, e, t0.positions))
    && (Reconciliation(x, disk, t0.events, t0.positions) ==> NothingDone(t0.events, t.events, report))
  }

  lemma RestoredBy(x: Tools, disk: Disk, now: int, base: seq<Event>, updates0: seq<Event>, start: Table, recovered: seq<Event>,
                   updates: seq<Event>, t: Table, report: Report)
    requires PositionsInTable(start.events, start.positions) && (t, report) == StartupPass(x, disk, now, start)
    requires Reconciliation(x, disk, t.events, t.positions) && Indexed(t.events, t.positions) && Unique(t.events)
    requires |t.events| == |base| + |recovered| && forall i | 0 <= i < |t.events| :: t.events[i].id == (base + recovered)[i].id
    requires t.events[|base|..] == recovered && Adds(base, updates0, updates)
    requires forall k | 0 <= k < |recovered| :: Fresh(x, disk.recordings, recovered[k], start.positions)
    requires Reconciliation(x, disk, start.events, start.positions) ==> NothingDone(start.events, t.events, report)
    ensures Restored(x, disk, now, base, updates0, start, base + recovered, updates, t, report)
  {
    hide Reconciliation, Indexed, Unique, Adds, Fresh, NothingDone, StartupPass;
    assert (base + recovered)[|base|..] == recovered;
  }

  lemma LinksAre(disk: Disk, links: Links)
    requires LinksValid(disk, links)
    ensures links == LinksOf(disk.recordings)
  {
  }

  lemma PassObeys(x: Tools, disk: Disk, now: int, start: Table, settled: Table, counts: Report, seen: set<string>, t: Table, report: Report)
    requires PositionsInTable(start.events, start.positions) && PositionsInTable(settled.events, settled.positions)
    requires ToolsValid(x) && DiskValid(disk) && SeenExactly(disk, settled.events, seen)
    requires LoopLaw(x, disk, now, start.events, settled.events, counts) && settled.positions == start.positions
    requires (t, report)
          == WalkedBoth(x, disk, seen, OfKind(disk.recordings, false), OfKind(disk.recordings, true), settled, counts)
    ensures StartupLaw(x, disk, now, start, t, report)
  {
    hide ToolsValid, DiskValid, LoopLaw, SeenExactly, WalkLaw, Walked;
    OrderOfWalk(disk);
    WalkedOn(x, disk, seen, OfKind(disk.recordings, false), OfKind(disk.recordings, true), settled, counts);
    WalkedObeys(x, disk, seen, WalkOrder(disk), settled, counts);
  }

  // The paths the loop over the events notes.
  function Noted(x: Tools, disk: Disk, now: int, es: seq<Event>): set<string> {
    SeenPaths(x, disk, LinksOf(disk.recordings), now, es)
  }

  lemma GainedInPass(x: Tools, disk: Disk, now: int, start: Table, t: Table, report: Report, updates: seq<Event>)
    requires PositionsInTable(start.events, start.positions) && (t, report) == StartupPass(x, disk, now, start)
    requires ToolsValid(x) && DiskValid(disk)
    ensures var gains := Gains(x, start.positions.Keys, Noted(x, disk, now, start.events), WalkOrder(disk));
            && |t.events| >= |start.events| && t.events[|start.events|..] == gains
            && (NoneHaunted(updates, gains) <==>
                NoneComesBack(x, start.positions.Keys, Noted(x, disk, now, start.events), updates, WalkOrder(disk)))
  {
    hide ToolsValid, DiskValid, Gains, Gained, Haunted, Walked;
    var links, seen := LinksOf(disk.recordings), Noted(x, disk, now, start.events);
    var settled := Table(ReconciledAll(x, disk, links, now, start.events), start.positions);
    OrderOfWalk(disk);
    WalkedOn(x, disk, seen, OfKind(disk.recordings, false), OfKind(disk.recordings, true), settled, EventCounts(x, disk, links, now, start.events));
    WalkedGains(x, disk, seen, WalkOrder(disk), settled, EventCounts(x, disk, links, now, start.events));
    GainedBehind(disk, settled, Gains(x, settled.positions.Keys, seen, WalkOrder(disk)),
                 |WalkOrder(disk)| == 0 || !WalkOrder(disk)[|WalkOrder(disk)| - 1].isWav, t);
    ComesBackExactly(x, start.positions.Keys, seen, updates, WalkOrder(disk));
  }

  ghost predicate NothingDone(before: seq<Event>, after: seq<Event>, report: Report) {
    && report.recovered == report.relinked == report.missing == report.requeued == report.unavailable == 0
    && |after| == |before| && forall i | 0 <= i < |after| :: SameWork(after[i], before[i])
  }

  lemma QuietWhole(x: Tools, disk: Disk, links: Links, now: int, start: Table, settled: Table, referenced: set<string>,
                   counts: Report, report: Report, es: seq<Event>)
    requires DiskValid(disk) && PositionsInTable(settled.events, settled.positions)
    requires settled.positions == start.positions && settled.events == ReconciledAll(x, disk, links, now, start.events)
    requires SeenExactly(disk, settled.events, referenced) && counts == EventCounts(x, disk, links, now, start.events)
    requires (forall r | r in disk.recordings :: Quiet(x, disk, settled.events, settled.positions, referenced, r))
         ==> es == settled.events && SameButInvalid(counts, report)
    ensures Reconciliation(x, disk, start.events, start.positions) ==> NothingDone(start.events, es, report)
  {
    hide Reconciled, Settled, AllSettled, Handled, Quiet, SeenExactly, EventCounts, SameWork;
    if Reconciliation(x, disk, start.events, start.positions) {
      QuietCounts(x, disk, links, now, start.events);
      QuietAfterPass(x, disk, links, now, start, settled, referenced);
    }
  }

  // The changed events, in the order of the table.
  function Changes(before: seq<Event>, after: seq<Event>): seq<Event>
    requires |before| == |after|
  {
    if |before| == 0 then []
    else
      var k := |before| - 1;
      Changes(before[..k], after[..k]) + (if after[k] != before[k] then [after[k]] else [])
  }

  lemma NoChanges(before: seq<Event>, after: seq<Event>)
    requires |before| == |after|
    ensures Changes(before[..0], after[..0]) == []
  {
  }

  lemma ChangesNext(before: seq<Event>, after: seq<Event>, k: nat)
    requires |before| == |after| && k < |before|
    ensures Changes(before[..k + 1], after[..k + 1])
         == Changes(before[..k], after[..k]) + (if after[k] != before[k] then [after[k]] else [])
  {
    assert before[..k + 1][..k] == before[..k] && after[..k + 1][..k] == after[..k];
  }

  lemma {:induction false} ChangesAreKnown(before: seq<Event>, after: seq<Event>)
    requires |before| == |after| && forall i | 0 <= i < |before| :: after[i].id == before[i].id
    ensures forall u | u in Changes(before, after) :: u.id in Ids(before)
  {
    hide Ids;
    if |before| > 0 {
      var k := |before| - 1;
      ChangesAreKnown(before[..k], after[..k]);
      IdsGrow(before, k);
      forall u | u in Changes(before, after) ensures u.id in Ids(before) {
        assert u in Changes(before[..k], after[..k]) || u == after[k];
      }
    }
  }

  lemma IdsGrow(es: seq<Event>, k: nat)
    requires k < |es|
    ensures Ids(es[..k]) <= Ids(es) && es[k].id in Ids(es)
  {
  }

  // What the loop over the events has done after k of them.
  ghost predicate Passed(x: Tools, disk: Disk, links: Links, now: int, start: seq<Event>, es: seq<Event>, waiting: seq<Event>,
                         report: Report, seen: set<string>, k: nat) {
    && k <= |start| == |es|
    && (forall i | 0 <= i < k :: es[i] == Reconciled(x, disk, links, now, start[i]).event)
    && (forall i | k <= i < |es| :: es[i] == start[i])
    && waiting == Changes(start[..k], es[..k])
    && report == EventCounts(x, disk, links, now, start[..k]) && seen == SeenPaths(x, disk, links, now, start[..k])
    && AllSettled(x, disk, es[..k]) && SeenExactly(disk, es[..k], seen)
  }

  lemma PassedNone(x: Tools, disk: Disk, links: Links, now: int, es: seq<Event>)
    ensures Passed(x, disk, links, now, es, es, [], Report(0, 0, 0, 0, 0, 0), {}, 0)
  {
    NothingSeen(x, disk);
    NoChanges(es, es);
    assert es[..0] == [];
  }

  lemma PassedNext(x: Tools, disk: Disk, links: Links, now: int, start: seq<Event>, es: seq<Event>, waiting: seq<Event>,
                   report: Report, seen: set<string>, k: nat)
    requires DiskValid(disk) && ToolsValid(x) && LinksValid(disk, links)
    requires Passed(x, disk, links, now, start, es, waiting, report, seen, k) && k < |es|
    ensures var o := Reconciled(x, disk, links, now, es[k]);
            && o.event.id == es[k].id
            && Passed(x, disk, links, now, start, es[k := o.event], waiting + (if o.event != es[k] then [o.event] else []),
                      report.(relinked := report.relinked + o.relinked, missing := report.missing + o.missing,
                              requeued := report.requeued + o.requeued, unavailable := report.unavailable + o.unavailable),
                      seen + o.seen, k + 1)
  {
    hide Reconciled, Settled, AllSettled, SeenExactly, DiskValid, ToolsValid, LinksValid, Changes;
    var o := Reconciled(x, disk, links, now, es[k]);
    var next := es[k := o.event];
    SeenMore(x, disk, links, now, es[..k], seen, es[k]);
    SettledMore(x, disk, es[..k], o.event);
    assert start[..k + 1][..k] == start[..k] && next[..k + 1] == es[..k] + [o.event] && next[..k] == es[..k];
    ChangesNext(start, next, k);
  }

  lemma PassedAll(x: Tools, disk: Disk, links: Links, now: int, start: seq<Event>, es: seq<Event>, waiting: seq<Event>,
                  report: Report, seen: set<string>)
    requires Passed(x, disk, links, now, start, es, waiting, report, seen, |es|)
    ensures |es| == |start| && es == ReconciledAll(x, disk, links, now, start) && waiting == Changes(start, es)
    ensures report == EventCounts(x, disk, links, now, start) && seen == SeenPaths(x, disk, links, now, start)
    ensures AllSettled(x, disk, es) && SeenExactly(disk, es, seen)
  {
    assert es[..|es|] == es && start[..|es|] == start;
  }

  // The loop over the IQ files, then the one over the WAV files.
  function WalkedBoth(x: Tools, disk: Disk, referenced: set<string>, iqFiles: seq<Recording>, wavFiles: seq<Recording>,
                      t: Table, report: Report): (Table, Report)
    requires PositionsInTable(t.events, t.positions)
  {
    var (middle, counts) := Walked(x, disk, referenced, iqFiles, t, report);
    Walked(x, disk, referenced, wavFiles, middle, counts)
  }

  /** The whole startup pass on the table before it: the loop over the events, then both over the recordings. */
  function StartupPass(x: Tools, disk: Disk, now: int, t: Table): (Table, Report)
    requires PositionsInTable(t.events, t.positions)
  {
    var links := LinksOf(disk.recordings);
    var es := ReconciledAll(x, disk, links, now, t.events);
    WalkedBoth(x, disk, SeenPaths(x, disk, links, now, t.events), OfKind(disk.recordings, false), OfKind(disk.recordings, true),
               Table(es, t.positions), EventCounts(x, disk, links, now, t.events))
  }

  // New updates, all about records of the base journal.
  ghost predicate Adds(base: seq<Event>, before: seq<Event>, after: seq<Event>) {
    before <= after && forall u | u in after[|before|..] :: u.id in Ids(base)
  }

  lemma NothingAdded(base: seq<Event>, updates: seq<Event>)
    ensures Adds(base, updates, updates)
  {
  }

  lemma OneAdded(base: seq<Event>, updates: seq<Event>, u: Event)
    requires u.id in Ids(base)
    ensures Adds(base, updates, updates + [u])
  {
    assert (updates + [u])[|updates|..] == [u];
  }

  lemma AddedAgain(base: seq<Event>, a: seq<Event>, b: seq<Event>, c: seq<Event>)
    requires Adds(base, a, b) && Adds(base, b, c)
    ensures Adds(base, a, c)
  {
    assert c[|a|..] == b[|a|..] + c[|b|..];
  }

  lemma ChangesAdded(base: seq<Event>, updates: seq<Event>, after: seq<Event>, es: seq<Event>, es': seq<Event>)
    requires |es| == |es'| == |base| && forall i | 0 <= i < |es| :: es[i].id == es'[i].id == base[i].id
    requires after == updates + Changes(es, es')
    ensures Adds(base, updates, after)
  {
    ChangesAreKnown(es, es');
    assert after[|updates|..] == Changes(es, es');
    forall id | id in Ids(es) ensures id in Ids(base) {
      var i :| 0 <= i < |es| && es[i].id == id;
      assert base[i] in base;
    }
  }

  // Recovered from one of the recordings, under an identifier that was not in the table.
  ghost predicate Fresh(x: Tools, rs: seq<Recording>, e: Event, positions: map<string, nat>) {
    (exists r :: r in rs && e.id == OwnID(x, r)) && e.id !in positions && !Legacy(e)
  }

  ghost predicate HaveFiles(disk: Disk, es: seq<Event>) { forall e | e in es :: HasFile(disk, e.iqPath) }

  lemma NoFiles(disk: Disk)
    ensures HaveFiles(disk, [])
  {
  }

  lemma OneMoreFile(disk: Disk, es: seq<Event>, e: Event)
    requires HaveFiles(disk, es) && HasFile(disk, e.iqPath)
    ensures HaveFiles(disk, es + [e])
  {
  }

  lemma RecoveredIs(x: Tools, r: Recording, e: Event)
    requires (r.isWav && r.facts.Some? && e == RecoveredWav(x, r)) || (!r.isWav && MetadataUsable(r) && e == RecoveredIQ(x, r))
    ensures e.id == OwnID(x, r) && (!r.isWav ==> e.iqPath == Some(r.path))
  {
  }

  lemma RecoveredFresh(x: Tools, r: Recording, e: Event, positions: map<string, nat>)
    requires e.id !in positions
    requires (r.isWav && r.facts.Some? && e == RecoveredWav(x, r)) || (!r.isWav && MetadataUsable(r) && e == RecoveredIQ(x, r))
    ensures Fresh(x, [r], e, positions)
  {
    assert r in [r];
  }

  lemma FreshEarlier(x: Tools, disk: Disk, r: Recording, rs: seq<Recording>, e: Event, start: Table, t: Table)
    requires r in rs && Fresh(x, [r], e, t.positions) && Grew(disk, start.events, start.positions, t.events, t.positions)
    ensures Fresh(x, rs, e, start.positions)
  {
  }

  lemma FreshAll(x: Tools, disk: Disk, iqFiles: seq<Recording>, wavFiles: seq<Recording>, recovered: seq<Event>, count: nat,
                 settled: Table, middle: Table)
    requires count <= |recovered| && Grew(disk, settled.events, settled.positions, middle.events, middle.positions)
    requires forall r | r in iqFiles || r in wavFiles :: r in disk.recordings
    requires forall k | 0 <= k < count :: Fresh(x, iqFiles, recovered[k], settled.positions)
    requires forall k | count <= k < |recovered| :: Fresh(x, wavFiles, recovered[k], middle.positions)
    ensures forall k | 0 <= k < |recovered| :: Fresh(x, disk.recordings, recovered[k], settled.positions)
  {
  }

  lemma NothingSeen(x: Tools, disk: Disk)
    ensures AllSettled(x, disk, []) && SeenExactly(disk, [], {})
  {
  }

  lemma SettledMore(x: Tools, disk: Disk, es: seq<Event>, e: Event)
    requires AllSettled(x, disk, es) && Settled(x, disk, e)
    ensures AllSettled(x, disk, es + [e])
  {
  }

  lemma SeenMeans(disk: Disk, es: seq<Event>, seen: set<string>)
    requires SeenExactly(disk, es, seen)
    ensures forall p | p in seen && p in disk.present :: Referenced(es, p)
  {
  }

  lemma QuietTurn(x: Tools, disk: Disk, links: Links, now: int, es: seq<Event>, index: nat)
    requires index < |es|
    ensures AllSettled(x, disk, es) ==> var o := Reconciled(x, disk, links, now, es[index]);
              o.relinked == o.missing == o.requeued == o.unavailable == 0 && SameWork(o.event, es[index])
  {
    hide Reconciled, Settled;
    if AllSettled(x, disk, es) {
      assert es[index] in es;
      SettledStays(x, disk, links, now, es[index]);
    }
  }

  lemma InTable(es: seq<Event>, positions: map<string, nat>)
    requires Indexed(es, positions)
    ensures PositionsInTable(es, positions)
    ensures forall id | id in positions :: es[positions[id]].id == id
  {
  }

  // The counters a quiet pass must leave alone; unreadable recordings are counted every time.
  ghost predicate SameButInvalid(a: Report, b: Report) {
    a.(invalid := b.invalid) == b
  }

  lemma SameAgain(a: Report, b: Report, c: Report)
    ensures SameButInvalid(a, b) && SameButInvalid(b, c) ==> SameButInvalid(a, c)
  {
  }

  // A pass over settled events counts nothing.
  lemma {:induction false} QuietCounts(x: Tools, disk: Disk, links: Links, now: int, es: seq<Event>)
    requires AllSettled(x, disk, es)
    ensures EventCounts(x, disk, links, now, es) == Report(0, 0, 0, 0, 0, 0)
  {
    hide Reconciled, Settled;
    if es != [] {
      QuietCounts(x, disk, links, now, es[..|es| - 1]);
      QuietTurn(x, disk, links, now, es, |es| - 1);
    }
  }

  // A turn without effect recovers and relinks nothing.
  lemma IdleCount(x: Tools, disk: Disk, t: Table, r: Recording, report: Report)
    requires PositionsInTable(t.events, t.positions) && r.path in disk.present && Turn(x, disk, t, r) == t
    ensures SameButInvalid(report, Counted(x, disk, t, r, report))
  {
    if !r.isWav && MetadataUsable(r) && r.metadata.value.eventID in t.positions {
      var index := t.positions[r.metadata.value.eventID];
      assert Turn(x, disk, t, r).events[index] == t.events[index];
    }
    assert |Turn(x, disk, t, r).events| == |t.events|;
  }

  /** Memory between the loops: the base records as replayed, then the recovered events. */
  ghost predicate InStep(base: seq<Event>, updates: seq<Event>, recovered: seq<Event>, t: Table) {
    && t.events == Replay(base, updates) + recovered
    && Indexed(t.events, t.positions) && Unique(t.events) && PositionsInTable(t.events, t.positions)
  }

  lemma MidwayStarts(base: seq<Event>, updates: seq<Event>, t: Table)
    requires t.events == Replay(base, updates) && Indexed(t.events, t.positions) && Unique(t.events)
    ensures InStep(base, updates, [], t)
  {
    hide Replay;
    InTable(t.events, t.positions);
    assert Replay(base, updates) + [] == Replay(base, updates);
  }

  lemma AddInStep(base: seq<Event>, updates: seq<Event>, recovered: seq<Event>, t: Table, e: Event)
    requires InStep(base, updates, recovered, t) && e.id !in t.positions
    ensures InStep(base, updates, recovered + [e], AddEvent(t, e))
  {
    hide Replay;
    IndexedAppend(t.events, t.positions, e);
    assert Find(t.events, e.id) < 0;
    assert Replay(base, updates) + recovered + [e] == Replay(base, updates) + (recovered + [e]);
    InTable(AddEvent(t, e).events, AddEvent(t, e).positions);
  }

  lemma RelinkInStep(disk: Disk, base: seq<Event>, updates: seq<Event>, recovered: seq<Event>, t: Table, id: string, path: string)
    requires InStep(base, updates, recovered, t) && id in t.positions && HaveFiles(disk, recovered)
    requires !HasFile(disk, t.events[t.positions[id]].iqPath)
    ensures var changed := t.events[t.positions[id]].(iqPath := Some(path));
            && InStep(base, updates + [changed], recovered, RelinkEvent(t, t.positions[id], path)) && changed.id in Ids(base)
  {
    hide Replay, Indexed, Find;
    InTable(t.events, t.positions);
    var index, was := t.positions[id], Replay(base, updates);
    var changed := t.events[index].(iqPath := Some(path));
    RelinkIsOld(disk, was, recovered, t.events, index);
    assert was[index] == t.events[index] && base[index] in base;
    UniqueFront(was, recovered, index);
    ReplayUpdate(base, updates, index, changed);
    assert t.events[index := changed] == was[index := changed] + recovered;
    IndexedUpdate(t.events, t.positions, t.events[index := changed]);
  }

  // An event without its file is not one of the recovered ones.
  lemma RelinkIsOld(disk: Disk, was: seq<Event>, recovered: seq<Event>, es: seq<Event>, index: nat)
    requires es == was + recovered && index < |es| && HaveFiles(disk, recovered) && !HasFile(disk, es[index].iqPath)
    ensures index < |was|
  {
    forall k | |was| <= k < |es| ensures HasFile(disk, es[k].iqPath) { assert es[k] == recovered[k - |was|]; }
  }

  lemma UniqueFront(was: seq<Event>, recovered: seq<Event>, index: nat)
    requires Unique(was + recovered) && index < |was|
    ensures Find(was, was[index].id) == index
  {
    assert forall k | 0 <= k < |was| :: was[k] == (was + recovered)[k];
    FindIs(was, index);
  }

  /** Recovered records, replayed with the updates there were before, are themselves unless haunted. */
  lemma ReplayRecovered(base: seq<Event>, updates0: seq<Event>, updates: seq<Event>, recovered: seq<Event>)
    requires Adds(base, updates0, updates) && Unique(base + recovered)
    ensures Replay(base + recovered, updates)[..|base|] == Replay(base, updates)
    ensures forall k | 0 <= k < |recovered| ::
              Replay(base + recovered, updates)[|base| + k] == recovered[k] <==> !Haunted(updates0, recovered[k])
  {
    hide Replay, Find, Adds, Haunted, Unique;
    forall i | 0 <= i < |base| ensures Replay(base + recovered, updates)[i] == Replay(base, updates)[i] {
      ReplayOld(base, updates, recovered, i);
    }
    forall k | 0 <= k < |recovered|
      ensures Replay(base + recovered, updates)[|base| + k] == recovered[k] <==> !Haunted(updates0, recovered[k])
    {
      ReplayNew(base, updates0, updates, recovered, k);
    }
  }

  lemma ReplayOld(base: seq<Event>, updates: seq<Event>, recovered: seq<Event>, i: nat)
    requires Unique(base + recovered) && i < |base|
    ensures Replay(base + recovered, updates)[i] == Replay(base, updates)[i]
  {
    hide Replay, Find;
    var all := base + recovered;
    ReplayAt(all, updates, i);
    ReplayAt(base, updates, i);
    UniqueFind(all, i);
    assert all[i] == base[i];
    UniqueFind(base, i) by { assert forall k | 0 <= k < |base| :: base[k] == all[k]; }
  }

  lemma ReplayNew(base: seq<Event>, updates0: seq<Event>, updates: seq<Event>, recovered: seq<Event>, k: nat)
    requires Adds(base, updates0, updates) && Unique(base + recovered) && k < |recovered|
    ensures Replay(base + recovered, updates)[|base| + k] == recovered[k] <==> !Haunted(updates0, recovered[k])
  {
    hide Replay, Find, Adds, Unique;
    ReplayAt(base + recovered, updates, |base| + k);
    UniqueFind(base + recovered, |base| + k);
    NotAdded(base, updates0, updates, recovered, k);
  }

  lemma UniqueFind(es: seq<Event>, i: nat)
    requires Unique(es) && i < |es|
    ensures Find(es, es[i].id) == i
  {
    FindIs(es, i);
  }

  // A new update is not about a recovered event.
  lemma NotAdded(base: seq<Event>, updates0: seq<Event>, updates: seq<Event>, recovered: seq<Event>, k: nat)
    requires Adds(base, updates0, updates) && Unique(base + recovered) && k < |recovered|
    ensures var id := recovered[k].id;
            Find(updates, id) == Find(updates0, id) && (Find(updates, id) >= 0 ==> updates[Find(updates, id)] == updates0[Find(updates, id)])
  {
    var id, all := recovered[k].id, base + recovered;
    assert all[|base| + k].id == id;
    forall j | |updates0| <= j < |updates| ensures updates[j].id != id {
      assert updates[j] == updates[|updates0|..][j - |updates0|];
      var b :| b in base && b.id == updates[j].id;
      var i :| 0 <= i < |base| && base[i] == b;
      assert all[i] == b && all[i].id != all[|base| + k].id;
    }
    FindSame(updates0, updates, id);
  }

  lemma {:induction false} FindSame(a: seq<Event>, b: seq<Event>, id: string)
    requires a <= b && forall j | |a| <= j < |b| :: b[j].id != id
    ensures Find(a, id) == Find(b, id)
    decreases |b|
  {
    if |a| == |b| {
      assert a == b;
    } else {
      FindSame(a, b[..|b| - 1], id);
    }
  }

  lemma InStepEnds(base: seq<Event>, updates0: seq<Event>, updates: seq<Event>, recovered: seq<Event>, t: Table)
    requires InStep(base, updates, recovered, t) && Adds(base, updates0, updates)
    ensures Indexed(t.events, t.positions) && Unique(t.events) && |t.events| == |base| + |recovered|
    ensures t.events[|base|..] == recovered && forall i | 0 <= i < |t.events| :: t.events[i].id == (base + recovered)[i].id
    ensures t.events == Replay(base + recovered, updates) <==> NoneHaunted(updates0, recovered)
  {
    hide Replay, Indexed, Adds, Haunted;
    var all := base + recovered;
    SameIdsUnique(t.events, all);
    ReplayRecovered(base, updates0, updates, recovered);
    var r := Replay(all, updates);
    forall i | 0 <= i < |base| ensures t.events[i] == r[i] { assert r[..|base|][i] == r[i]; }
    forall k | 0 <= k < |recovered| ensures t.events[|base| + k] == r[|base| + k] <==> !Haunted(updates0, recovered[k]) {
      assert t.events[|base| + k] == recovered[k];
    }
    if t.events == r {
      forall e | e in recovered ensures !Haunted(updates0, e) {
        var k :| 0 <= k < |recovered| && recovered[k] == e;
        assert t.events[|base| + k] == r[|base| + k];
      }
    }
    if NoneHaunted(updates0, recovered) {
      forall i | |base| <= i < |all| ensures t.events[i] == r[i] {
        assert recovered[i - |base|] in recovered && t.events[|base| + (i - |base|)] == r[|base| + (i - |base|)];
      }
    }
  }

  lemma SameIdsUnique(a: seq<Event>, b: seq<Event>)
    requires Unique(a) && |a| == |b| && forall i | 0 <= i < |a| :: a[i].id == b[i].id
    ensures Unique(b)
  {
  }

  lemma GrewNot(disk: Disk, t: Table, report: Report)
    ensures Grew(disk, t.events, t.positions, t.events, t.positions) && SameButInvalid(report, report)
  {
  }

  lemma GrewAgain(disk: Disk, a: Table, b: Table, c: Table)
    requires Grew(disk, a.events, a.positions, b.events, b.positions)
    requires Grew(disk, b.events, b.positions, c.events, c.positions)
    ensures Grew(disk, a.events, a.positions, c.events, c.positions)
  {
  }

  // Nothing will happen to the recording: it is skipped, or its turn has no effect.
  ghost predicate Quiet(x: Tools, disk: Disk, es: seq<Event>, positions: map<string, nat>, referenced: set<string>, r: Recording)
    requires PositionsInTable(es, positions)
  {
    r.path in referenced || (Handled(x, disk, es, positions, r) && !Referenced(es, r.path))
  }

  lemma ReferencedIsHandled(x: Tools, disk: Disk, a: Table, b: Table, r: Recording)
    requires PositionsInTable(b.events, b.positions) && r.path in disk.present
    requires Referenced(a.events, r.path) && Grew(disk, a.events, a.positions, b.events, b.positions)
    ensures Handled(x, disk, b.events, b.positions, r)
  {
    var i :| 0 <= i < |a.events| && (a.events[i].audioPath == Some(r.path) || a.events[i].iqPath == Some(r.path));
    assert b.events[i].audioPath == Some(r.path) || b.events[i].iqPath == Some(r.path);
  }

  lemma StillReferenced(disk: Disk, a: Table, b: Table, referenced: set<string>)
    requires Grew(disk, a.events, a.positions, b.events, b.positions)
    requires forall p | p in referenced && p in disk.present :: Referenced(a.events, p)
    ensures forall p | p in referenced && p in disk.present :: Referenced(b.events, p)
  {
    forall p | p in referenced && p in disk.present ensures Referenced(b.events, p) {
      var i :| 0 <= i < |a.events| && (a.events[i].audioPath == Some(p) || a.events[i].iqPath == Some(p));
      assert b.events[i].audioPath == Some(p) || b.events[i].iqPath == Some(p);
    }
  }

  /** The state every pass ends in: all events settled, all recordings handled. */
  ghost predicate Reconciliation(x: Tools, disk: Disk, es: seq<Event>, positions: map<string, nat>) {
    && AllSettled(x, disk, es) && PositionsInTable(es, positions)
    && forall r | r in disk.recordings :: Handled(x, disk, es, positions, r)
  }

  lemma AllHandled(x: Tools, disk: Disk, t: Table, iqFiles: seq<Recording>, wavFiles: seq<Recording>)
    requires AllSettled(x, disk, t.events) && PositionsInTable(t.events, t.positions)
    requires forall r | r in disk.recordings :: r in iqFiles || r in wavFiles
    requires forall r | r in iqFiles || r in wavFiles :: Handled(x, disk, t.events, t.positions, r)
    ensures Reconciliation(x, disk, t.events, t.positions)
  {
  }

  // After the first loop over a reconciled table, every recording is quiet.
  lemma QuietAfterPass(x: Tools, disk: Disk, links: Links, now: int, start: Table, settled: Table, referenced: set<string>)
    requires DiskValid(disk) && Reconciliation(x, disk, start.events, start.positions)
    requires settled.positions == start.positions && |settled.events| == |start.events|
    requires forall i | 0 <= i < |start.events| :: settled.events[i] == Reconciled(x, disk, links, now, start.events[i]).event
    requires SeenExactly(disk, settled.events, referenced)
    ensures PositionsInTable(settled.events, settled.positions)
    ensures forall r | r in disk.recordings :: Quiet(x, disk, settled.events, settled.positions, referenced, r)
    ensures forall i | 0 <= i < |start.events| :: SameWork(settled.events[i], start.events[i])
  {
    hide Reconciled, Settled;
    forall i | 0 <= i < |start.events| ensures SameWork(settled.events[i], start.events[i]) {
      QuietTurn(x, disk, links, now, start.events, i);
    }
    forall r | r in disk.recordings ensures Quiet(x, disk, settled.events, settled.positions, referenced, r) {
      assert Grew(disk, start.events, start.positions, settled.events, settled.positions);
      HandledStays(x, disk, start.events, start.positions, settled.events, settled.positions, r);
    }
  }

  lemma NothingWalked()
    ensures LinksOf([]) == Links(map[], {}) && OfKind([], false) == OfKind([], true) == []
  {
  }

  lemma WalkedOneFile(rs: seq<Recording>, k: nat)
    requires k < |rs|
    ensures var before, r := LinksOf(rs[..k]), rs[k];
            LinksOf(rs[..k + 1]) ==
            Links(before.files[r.name := r.path], if r.name in before.files then before.ambiguous + {r.name} else before.ambiguous)
    ensures forall wav :: OfKind(rs[..k + 1], wav) == OfKind(rs[..k], wav) + if rs[k].isWav == wav then [rs[k]] else []
  {
    assert rs[..k + 1][..k] == rs[..k] && rs[..k + 1][k] == rs[k];
  }

  // The walk over the folders: the last path under each name, the names met twice, and the files by kind.
  method CollectLinks(disk: Disk) returns (links: Links, iqFiles: seq<Recording>, wavFiles: seq<Recording>)
    ensures links == LinksOf(disk.recordings)
    ensures iqFiles == OfKind(disk.recordings, false) && wavFiles == OfKind(disk.recordings, true)
  {
    hide LinksOf, OfKind;
    var files: map<string, string>, ambiguous: set<string> := map[], {};
    iqFiles, wavFiles := [], [];
    NothingWalked();
    for k := 0 to |disk.recordings|
      invariant Links(files, ambiguous) == LinksOf(disk.recordings[..k])
      invariant iqFiles == OfKind(disk.recordings[..k], false) && wavFiles == OfKind(disk.recordings[..k], true)
    {
      var r := disk.recordings[k];
      WalkedOneFile(disk.recordings, k);
      if r.name in files { ambiguous := ambiguous + {r.name}; }
      files := files[r.name := r.path];
      if r.isWav { wavFiles := wavFiles + [r]; } else { iqFiles := iqFiles + [r]; }
    }
    assert disk.recordings[..|disk.recordings|] == disk.recordings;
    links := Links(files, ambiguous);
  }
}
