/** What server/internal/app/media_recovery.go decides about one event, and about one recording
    found on disk.  The text cleaners, the file-name and the hash functions are parameters. */
module Media {
  import opened Wrappers
  import opened Events

  datatype IQMetadata = IQMetadata(eventID: string, capturedAt: int, frequencyHz: real, sampleBytes: int, sampleRateHz: int)

  // What a canonical PCM header and the file name say about a WAV file.
  datatype WavFacts = WavFacts(startedAt: int, durationSeconds: real, frequencyHz: real)

  /** A recording met while walking the IQ and Recordings folders; the facts are absent when its
      metadata or header cannot be read or parsed. */
  datatype Recording = Recording(path: string, name: string, isWav: bool, size: int,
                                 metadata: Option<IQMetadata>, facts: Option<WavFacts>)

  datatype Report = Report(recovered: nat, relinked: nat, missing: nat, unavailable: nat, invalid: nat, requeued: nat)

  // The walk in its order, and the paths that name existing files.
  datatype Disk = Disk(recordings: seq<Recording>, present: set<string>)

  datatype Tools = Tools(
    isEvidence: Message -> bool,                 // the test validDecoderMessages applies to each message
    extractCallsigns: seq<string> -> seq<string>,
    cleanTranscript: string -> string,
    baseName: string -> string,
    recoveredID: string -> string)

  // Recordings exist, and no file has the empty path.
  ghost predicate DiskValid(disk: Disk) {
    && "" !in disk.present
    && forall r | r in disk.recordings :: r.path in disk.present
  }

  // Cleaning a cleaned transcript changes nothing; a recovered identifier is "recovered-" and a hash.
  ghost predicate ToolsValid(x: Tools) {
    && (forall t: string :: x.cleanTranscript(x.cleanTranscript(t)) == x.cleanTranscript(t))
    && (forall p: string :: x.recoveredID(p) != "")
  }

  // ---- one event ----

  function Evidence(x: Tools, messages: seq<Message>): (r: seq<Message>)
    ensures |r| <= |messages|
    ensures forall m | m in r :: x.isEvidence(m)
    ensures |r| == |messages| <==> forall m | m in messages :: x.isEvidence(m)
    ensures |r| == |messages| ==> r == messages
  {
    if messages == [] then []
    else
      var rest := Evidence(x, messages[..|messages| - 1]);
      assert messages == messages[..|messages| - 1] + [messages[|messages| - 1]];
      if x.isEvidence(messages[|messages| - 1]) then rest + [messages[|messages| - 1]] else rest
  }

  // Cleaning decides neither paths nor status.
  ghost predicate SameFate(a: Event, b: Event) {
    && a.id == b.id && a.audioPath == b.audioPath && a.iqPath == b.iqPath
    && a.status == b.status && a.analysisError == b.analysisError && a.completedAt == b.completedAt
  }

  // Each cleaner returns the event and whether what it removed calls for a new analysis.
  function CleanEvidence(x: Tools, e: Event): (r: (Event, bool))
    ensures SameFate(r.0, e) && r.0.transcript == e.transcript
    ensures r.1 ==> r.0.analysis.None?
    ensures forall m | m in r.0.messages :: x.isEvidence(m)
    ensures (forall m | m in e.messages :: x.isEvidence(m)) ==> r == (e, false)
  {
    var kept := Evidence(x, e.messages);
    if |kept| == |e.messages| then (e, false)
    else if kept == [] then
      (e.(messages := kept, analysis := None, protocolName := None,
          confidence := if e.confidence < 0.72 then e.confidence else 0.72), true)
    else (e.(messages := kept, analysis := None), true)
  }

  function CleanCallsigns(x: Tools, e: Event): (r: Event)
    ensures SameFate(r, e) && r.transcript == e.transcript && r.messages == e.messages
    ensures r.analysis.None? <==> e.analysis.None?
  {
    var e1 := if |e.callsigns| > 0 then e.(callsigns := x.extractCallsigns(e.callsigns)) else e;
    if e1.analysis.Some? && |e1.analysis.value.callsigns| > 0
    then e1.(analysis := Some(e1.analysis.value.(callsigns := x.extractCallsigns(e1.analysis.value.callsigns))))
    else e1
  }

  function CleanTranscript(x: Tools, e: Event): (r: (Event, bool))
    ensures SameFate(r.0, e) && r.0.messages == e.messages
    ensures r.1 || e.analysis.None? ==> r.0.analysis.None?
    ensures (e.transcript.Some? ==> x.cleanTranscript(e.transcript.value) == e.transcript.value) ==> r == (e, false)
  {
    if e.transcript.None? || x.cleanTranscript(e.transcript.value) == e.transcript.value then (e, false)
    else
      var cleaned := x.cleanTranscript(e.transcript.value);
      (e.(transcript := if cleaned == "" then None else Some(cleaned), analysis := None), true)
  }

  function Cleaned(x: Tools, before: Event): (Event, bool) {
    var e0 := if before.status != Unavailable then before.(mediaIssues := []) else before;
    var (e1, dropped) := CleanEvidence(x, e0);
    var (e2, changed) := CleanTranscript(x, CleanCallsigns(x, e1));
    (e2, dropped || changed)
  }

  ghost predicate Clean(x: Tools, e: Event) {
    && (forall m | m in e.messages :: x.isEvidence(m))
    && (e.transcript.Some? ==> x.cleanTranscript(e.transcript.value) == e.transcript.value)
  }

  lemma CleanedIsClean(x: Tools, e: Event)
    requires forall t: string :: x.cleanTranscript(x.cleanTranscript(t)) == x.cleanTranscript(t)
    ensures Clean(x, Cleaned(x, e).0)
  {
    hide CleanEvidence, CleanCallsigns;
  }

  lemma CleanedKeepsFate(x: Tools, e: Event)
    ensures SameFate(Cleaned(x, e).0, e)
    ensures Cleaned(x, e).1 ==> Cleaned(x, e).0.analysis.None?
  {
    hide CleanEvidence, CleanCallsigns, CleanTranscript;
  }

  lemma CleanStaysClean(x: Tools, e: Event)
    requires Clean(x, e)
    ensures var (c, reanalyse) := Cleaned(x, e);
            !reanalyse && c.transcript == e.transcript && c.messages == e.messages && c.analysis.Some? == e.analysis.Some?
  {
    hide CleanEvidence, CleanCallsigns, CleanTranscript;
  }

  lemma CleanedTwice(x: Tools, e: Event)
    requires Clean(x, e)
    requires forall s: seq<string> :: x.extractCallsigns(x.extractCallsigns(s)) == x.extractCallsigns(s)
    ensures Cleaned(x, Cleaned(x, e).0) == Cleaned(x, e)
  {
    hide CleanEvidence, CleanTranscript;
  }

  datatype Links = Links(files: map<string, string>, ambiguous: set<string>)

  /** What becomes of one media path: kept, relinked to the one recording with its file name, or lost. */
  datatype Resolved = Resolved(path: Option<string>, issues: seq<string>, relinked: nat, missing: nat, seen: set<string>)

  function Resolve(x: Tools, disk: Disk, links: Links, path: Option<string>): Resolved {
    if path.None? || path.value == "" then Resolved(path, [], 0, 0, {})
    else if path.value in disk.present then Resolved(path, [], 0, 0, {path.value})
    else
      var name := x.baseName(path.value);
      if name in links.files && name !in links.ambiguous then
        Resolved(Some(links.files[name]), [], 1, 0, {links.files[name]})
      else Resolved(None, ["Missing recording: " + path.value], 0, 1, {path.value})
  }

  predicate Interrupted(e: Event) {
    e.status == Running
    || (e.status == Error && (e.analysisError == "context canceled" || e.analysisError == "context deadline exceeded"))
  }

  datatype Verdict = Verdict(event: Event, requeued: nat, unavailable: nat)

  function Resumed(e: Event): Event {
    if Interrupted(e) then e.(status := Pending, analysisError := "", completedAt := None) else e
  }

  function Finished(now: int, e: Event): Event {
    if e.status == Pending && e.analysis.Some? && e.completedAt.None?
    then e.(status := Complete, analysisError := "", completedAt := Some(now)) else e
  }

  function Requeued(again: bool, e: Event): Event {
    if again then e.(status := Pending, analysisError := "", completedAt := None) else e
  }

  function Retired(lost: bool, e: Event): Event {
    if lost
    then e.(status := Unavailable, analysisError := "source recording was removed by retention cleanup", completedAt := None)
    else e
  }

  /** The status after a restart: interrupted work is pending again, finished work whose status was
      lost is complete, cleaned evidence is analysed again, and an event that lost its last
      recording leaves the queue. */
  function Restated(now: int, hadMedia: bool, reanalyse: bool, e1: Event): (v: Verdict) {
    var kept := e1.audioPath.Some? || e1.iqPath.Some?;
    var again, lost := reanalyse && kept, hadMedia && !kept;
    Verdict(Retired(lost, Requeued(again, Finished(now, Resumed(e1)))),
            (if Interrupted(e1) then 1 else 0) + (if again then 1 else 0), if lost then 1 else 0)
  }

  datatype Outcome = Outcome(event: Event, relinked: nat, missing: nat, requeued: nat, unavailable: nat, seen: set<string>)

  function Linked(audio: Resolved, iq: Resolved, e: Event): Event {
    e.(audioPath := audio.path, iqPath := iq.path, mediaIssues := e.mediaIssues + audio.issues + iq.issues)
  }

  /** One turn of the pass over the table. */
  function Reconciled(x: Tools, disk: Disk, links: Links, now: int, before: Event): Outcome {
    var hadMedia := before.audioPath.Some? || before.iqPath.Some?;
    var (cleaned, reanalyse) := Cleaned(x, before);
    var audio := Resolve(x, disk, links, cleaned.audioPath);
    var iq := Resolve(x, disk, links, cleaned.iqPath);
    var v := Restated(now, hadMedia, reanalyse, Linked(audio, iq, cleaned));
    Outcome(v.event, audio.relinked + iq.relinked, audio.missing + iq.missing, v.requeued, v.unavailable, audio.seen + iq.seen)
  }

  ghost predicate PathSettled(disk: Disk, path: Option<string>) {
    path.None? || path.value == "" || path.value in disk.present
  }

  // Nothing left for the next start to recover.
  ghost predicate StatusSettled(e: Event) {
    !Interrupted(e) && (e.status == Pending ==> e.analysis.None? || e.completedAt.Some?)
  }

  /** What a pass leaves behind in every event: existing paths, nothing running, nothing to clean. */
  ghost predicate Settled(x: Tools, disk: Disk, e: Event) {
    PathSettled(disk, e.audioPath) && PathSettled(disk, e.iqPath) && StatusSettled(e) && Clean(x, e)
  }

  /** The walk's two maps: the last path met under each file name, and the names met more than once. */
  function LinksOf(rs: seq<Recording>): Links {
    if rs == [] then Links(map[], {})
    else
      var before, r := LinksOf(rs[..|rs| - 1]), rs[|rs| - 1];
      Links(before.files[r.name := r.path], if r.name in before.files then before.ambiguous + {r.name} else before.ambiguous)
  }

  // A recording with the name, at the path.
  ghost predicate Named(rs: seq<Recording>, name: string, path: string) {
    exists i | 0 <= i < |rs| :: rs[i].name == name && rs[i].path == path
  }

  ghost predicate Shared(rs: seq<Recording>, name: string) {
    exists i, j | 0 <= i < j < |rs| :: rs[i].name == name && rs[j].name == name
  }

  ghost predicate Present(rs: seq<Recording>, name: string) { exists i | 0 <= i < |rs| :: rs[i].name == name }

  lemma OneMoreName(rs: seq<Recording>, r: Recording, name: string)
    ensures Present(rs + [r], name) <==> Present(rs, name) || r.name == name
    ensures Shared(rs + [r], name) <==> Shared(rs, name) || (r.name == name && Present(rs, name))
    ensures forall path | Named(rs, name, path) :: Named(rs + [r], name, path)
    ensures Named(rs + [r], r.name, r.path)
  {
    var all := rs + [r];
    assert all[|rs|] == r && forall i | 0 <= i < |rs| :: all[i] == rs[i];
    if Present(rs, name) {
      var i :| 0 <= i < |rs| && rs[i].name == name;
      assert all[i].name == name;
    }
    if Shared(rs, name) {
      var i, j :| 0 <= i < j < |rs| && rs[i].name == name && rs[j].name == name;
      assert all[i].name == name && all[j].name == name;
    }
    forall path | Named(rs, name, path) ensures Named(all, name, path) {
      var i :| 0 <= i < |rs| && rs[i].name == name && rs[i].path == path;
      assert all[i].name == name;
    }
  }

  /** Exactly the names of recordings are linked, each to a recording of that name; exactly the names of two
      recordings are ambiguous. */
  lemma {:induction false} LinksExactly(rs: seq<Recording>, name: string)
    ensures name in LinksOf(rs).files <==> Present(rs, name)
    ensures name in LinksOf(rs).files ==> Named(rs, name, LinksOf(rs).files[name])
    ensures name in LinksOf(rs).ambiguous <==> Shared(rs, name)
  {
    if rs != [] {
      hide Named, Shared, Present;
      var init, r := rs[..|rs| - 1], rs[|rs| - 1];
      assert rs == init + [r];
      LinksExactly(init, name);
      LinksExactly(init, r.name);
      OneMoreName(init, r, name);
    }
  }

  ghost predicate LinksValid(disk: Disk, links: Links) {
    links == LinksOf(disk.recordings)
  }

  lemma LinkedIsPresent(disk: Disk, name: string)
    requires DiskValid(disk) && name in LinksOf(disk.recordings).files
    ensures LinksOf(disk.recordings).files[name] in disk.present
  {
    LinksExactly(disk.recordings, name);
  }

  /** A lost path is relinked exactly when one recording, and no other, has its file name, and then to it. */
  lemma RelinkedExactly(x: Tools, disk: Disk, path: string)
    requires DiskValid(disk) && path != "" && path !in disk.present
    ensures var r, name := Resolve(x, disk, LinksOf(disk.recordings), Some(path)), x.baseName(path);
            && (r.path.Some? <==> !Shared(disk.recordings, name) && exists p :: Named(disk.recordings, name, p))
            && (r.path.Some? ==> Named(disk.recordings, name, r.path.value))
            && (r.path.Some? ==> forall p :: Named(disk.recordings, name, p) <==> p == r.path.value)
  {
    var rs, name := disk.recordings, x.baseName(path);
    var r := Resolve(x, disk, LinksOf(rs), Some(path));
    LinksExactly(rs, name);
    if p :| Named(rs, name, p) {
      var i :| 0 <= i < |rs| && rs[i].name == name && rs[i].path == p;
      assert name in LinksOf(rs).files;
    }
    if r.path.Some? {
      forall p | Named(rs, name, p) ensures p == r.path.value {
        var i :| 0 <= i < |rs| && rs[i].name == name && rs[i].path == p;
        var j :| 0 <= j < |rs| && rs[j].name == name && rs[j].path == r.path.value;
        assert i == j;
      }
    }
  }

  lemma ResolveSettles(x: Tools, disk: Disk, links: Links, path: Option<string>)
    requires DiskValid(disk) && LinksValid(disk, links)
    ensures var r := Resolve(x, disk, links, path);
            && PathSettled(disk, r.path)
            && forall p | p in disk.present :: p in r.seen <==> r.path == Some(p)
  {
    if path.Some? {
      var name := x.baseName(path.value);
      if name in links.files { LinkedIsPresent(disk, name); }
    }
  }

  lemma RestatedSettles(now: int, hadMedia: bool, reanalyse: bool, e: Event)
    requires reanalyse ==> e.analysis.None?
    ensures var r := Restated(now, hadMedia, reanalyse, e).event;
            && StatusSettled(r)
            && r.id == e.id && r.audioPath == e.audioPath && r.iqPath == e.iqPath
            && r.messages == e.messages && r.transcript == e.transcript
  {
  }

  /** One pass settles an event, and records as seen exactly the existing recordings it names. */
  lemma PassSettles(x: Tools, disk: Disk, links: Links, now: int, e: Event)
    requires DiskValid(disk) && ToolsValid(x) && LinksValid(disk, links)
    ensures var o := Reconciled(x, disk, links, now, e);
            && o.event.id == e.id
            && o.event.audioPath == Resolve(x, disk, links, e.audioPath).path
            && o.event.iqPath == Resolve(x, disk, links, e.iqPath).path
            && Settled(x, disk, o.event)
            && forall p | p in disk.present :: p in o.seen <==> o.event.audioPath == Some(p) || o.event.iqPath == Some(p)
  {
    hide Cleaned, Resolve, Restated, StatusSettled, PathSettled, Interrupted;
    CleanedIsClean(x, e);
    CleanedKeepsFate(x, e);
    var (cleaned, reanalyse) := Cleaned(x, e);
    ResolveSettles(x, disk, links, cleaned.audioPath);
    ResolveSettles(x, disk, links, cleaned.iqPath);
    var audio, iq := Resolve(x, disk, links, cleaned.audioPath), Resolve(x, disk, links, cleaned.iqPath);
    RestatedSettles(now, e.audioPath.Some? || e.iqPath.Some?, reanalyse, Linked(audio, iq, cleaned));
  }

  // A settled event and the same event after a pass differ at most in its issues and callsigns.
  ghost predicate SameWork(a: Event, b: Event) {
    SameFate(a, b) && a.transcript == b.transcript && a.messages == b.messages && a.analysis.Some? == b.analysis.Some?
  }

  lemma RestatedStays(now: int, hadMedia: bool, e: Event)
    requires StatusSettled(e) && (hadMedia ==> e.audioPath.Some? || e.iqPath.Some?)
    ensures Restated(now, hadMedia, false, e) == Verdict(e, 0, 0)
  {
  }

  lemma ResolveStays(x: Tools, disk: Disk, links: Links, path: Option<string>)
    requires PathSettled(disk, path)
    ensures var r := Resolve(x, disk, links, path);
            r.path == path && r.relinked == r.missing == 0 && r.issues == []
  {
  }

  /** A pass over a settled event relinks, loses, requeues and withdraws nothing. */
  lemma SettledStays(x: Tools, disk: Disk, links: Links, now: int, e: Event)
    requires Settled(x, disk, e)
    ensures var o := Reconciled(x, disk, links, now, e);
            && o.relinked == o.missing == o.requeued == o.unavailable == 0
            && o.event == Cleaned(x, e).0
            && SameWork(o.event, e) && Settled(x, disk, o.event)
  {
    hide Cleaned, Resolve, Restated, PathSettled;
    CleanStaysClean(x, e);
    CleanedKeepsFate(x, e);
    var cleaned := Cleaned(x, e).0;
    ResolveStays(x, disk, links, cleaned.audioPath);
    ResolveStays(x, disk, links, cleaned.iqPath);
    assert Linked(Resolve(x, disk, links, cleaned.audioPath), Resolve(x, disk, links, cleaned.iqPath), cleaned) == cleaned by {
      assert cleaned.mediaIssues + [] + [] == cleaned.mediaIssues;
    }
    RestatedStays(now, e.audioPath.Some? || e.iqPath.Some?, cleaned);
  }

  /** The pass after that changes nothing at all, provided extracting callsigns settles too. */
  lemma ThirdPassChangesNothing(x: Tools, disk: Disk, links: Links, now: int, later: int, e: Event)
    requires Settled(x, disk, e)
    requires forall s: seq<string> :: x.extractCallsigns(x.extractCallsigns(s)) == x.extractCallsigns(s)
    ensures var second := Reconciled(x, disk, links, now, e).event;
            Reconciled(x, disk, links, later, second).event == second
  {
    hide Cleaned, Reconciled, Settled;
    SettledStays(x, disk, links, now, e);
    SettledStays(x, disk, links, later, Cleaned(x, e).0);
    assert Clean(x, e) by { SettledIsClean(x, disk, e); }
    CleanedTwice(x, e);
  }

  lemma SettledIsClean(x: Tools, disk: Disk, e: Event)
    requires Settled(x, disk, e)
    ensures Clean(x, e)
  {
  }

  // ---- one recording ----

  ghost predicate Referenced(es: seq<Event>, path: string) {
    exists i | 0 <= i < |es| :: es[i].audioPath == Some(path) || es[i].iqPath == Some(path)
  }

  predicate MetadataUsable(r: Recording) {
    r.metadata.Some? && r.metadata.value.sampleRateHz > 0 && r.metadata.value.sampleBytes > 0 && r.metadata.value.sampleBytes == r.size
  }

  predicate HasFile(disk: Disk, path: Option<string>) { path.Some? && path.value in disk.present }

  ghost predicate PositionsInTable(es: seq<Event>, positions: map<string, nat>) {
    forall id | id in positions :: positions[id] < |es|
  }

  /** A pass would do nothing with the recording: some event has it, or its description is unusable,
      or the event it belongs to has a recording already. */
  ghost predicate Handled(x: Tools, disk: Disk, es: seq<Event>, positions: map<string, nat>, r: Recording)
    requires PositionsInTable(es, positions)
  {
    Referenced(es, r.path)
    || (if r.isWav then x.recoveredID(r.path) in positions || r.facts.None?
        else
          !MetadataUsable(r)
          || (var id := r.metadata.value.eventID;
              if id in positions then HasFile(disk, es[positions[id]].iqPath)
              else id == "" && x.recoveredID(r.path) in positions))
  }

  // recoveredEvent
  function Recovered(x: Tools, path: string): Event {
    Event(x.recoveredID(path), true, Some("Recovered recording · original event metadata unavailable"), 0, 0.0, 0.0, 0.0,
          None, 0.0, [], [], None, None, None, None, [], Pending, "", None)
  }

  function RecoveredIQ(x: Tools, r: Recording): (e: Event)
    requires MetadataUsable(r)
  {
    var m := r.metadata.value;
    var e := Recovered(x, r.path);
    e.(id := if m.eventID != "" then m.eventID else e.id, iqPath := Some(r.path), startedAt := m.capturedAt,
       frequencyHz := m.frequencyHz, durationSeconds := m.sampleBytes as real / (2 * m.sampleRateHz) as real)
  }

  function RecoveredWav(x: Tools, r: Recording): (e: Event)
    requires r.facts.Some?
  {
    Recovered(x, r.path).(audioPath := Some(r.path), frequencyHz := r.facts.value.frequencyHz,
                          durationSeconds := r.facts.value.durationSeconds, startedAt := r.facts.value.startedAt)
  }

  /** A pass over the table changes it only in ways that keep a handled recording handled. */
  ghost predicate Grew(disk: Disk, es: seq<Event>, positions: map<string, nat>, es': seq<Event>, positions': map<string, nat>) {
    && |es| <= |es'|
    && (forall i | 0 <= i < |es| ::
          && es'[i].audioPath == es[i].audioPath
          && (es'[i].iqPath == es[i].iqPath || (!HasFile(disk, es[i].iqPath) && HasFile(disk, es'[i].iqPath))))
    && (forall id | id in positions :: id in positions' && positions'[id] == positions[id])
    && ("" in positions' ==> "" in positions)
  }

  lemma HandledStays(x: Tools, disk: Disk, es: seq<Event>, positions: map<string, nat>,
                     es': seq<Event>, positions': map<string, nat>, r: Recording)
    requires PositionsInTable(es, positions) && PositionsInTable(es', positions')
    requires r.path in disk.present && Grew(disk, es, positions, es', positions')
    requires Handled(x, disk, es, positions, r)
    ensures Handled(x, disk, es', positions', r)
  {
    if Referenced(es, r.path) {
      var i :| 0 <= i < |es| && (es[i].audioPath == Some(r.path) || es[i].iqPath == Some(r.path));
      assert es'[i].audioPath == Some(r.path) || es'[i].iqPath == Some(r.path);
    }
  }

  lemma HandledAllStay(x: Tools, disk: Disk, es: seq<Event>, positions: map<string, nat>,
                       es': seq<Event>, positions': map<string, nat>, rs: seq<Recording>)
    requires PositionsInTable(es, positions) && PositionsInTable(es', positions')
    requires Grew(disk, es, positions, es', positions')
    requires forall r | r in rs :: r.path in disk.present && Handled(x, disk, es, positions, r)
    ensures forall r | r in rs :: Handled(x, disk, es', positions', r)
  {
    forall r | r in rs ensures Handled(x, disk, es', positions', r) {
      HandledStays(x, disk, es, positions, es', positions', r);
    }
  }

  // ---- the turns over the unreferenced recordings ----

  datatype Table = Table(events: seq<Event>, positions: map<string, nat>)

  // recoverEvent
  function AddEvent(t: Table, e: Event): Table {
    if e.id in t.positions then t else Table(t.events + [e], t.positions[e.id := |t.events|])
  }

  function RelinkEvent(t: Table, index: nat, path: string): Table
    requires index < |t.events|
  {
    t.(events := t.events[index := t.events[index].(iqPath := Some(path))])
  }

  // The event a recording belongs to, or becomes.
  function OwnID(x: Tools, r: Recording): string {
    if !r.isWav && r.metadata.Some? && r.metadata.value.eventID != "" then r.metadata.value.eventID else x.recoveredID(r.path)
  }

  function Turn(x: Tools, disk: Disk, t: Table, r: Recording): (t': Table)
    requires PositionsInTable(t.events, t.positions)
    ensures PositionsInTable(t'.events, t'.positions)
  {
    if r.isWav then
      if x.recoveredID(r.path) in t.positions || r.facts.None? then t else AddEvent(t, RecoveredWav(x, r))
    else if !MetadataUsable(r) then t
    else
      var id := r.metadata.value.eventID;
      if id in t.positions then
        if HasFile(disk, t.events[t.positions[id]].iqPath) then t else RelinkEvent(t, t.positions[id], r.path)
      else AddEvent(t, RecoveredIQ(x, r))
  }

  // How the report changes in a turn: an unusable recording is invalid, a known event may be relinked, and
  // otherwise one may be recovered.
  function Counted(x: Tools, disk: Disk, t: Table, r: Recording, report: Report): Report
    requires PositionsInTable(t.events, t.positions)
  {
    if r.isWav && x.recoveredID(r.path) in t.positions then report
    else if (r.isWav && r.facts.None?) || (!r.isWav && !MetadataUsable(r)) then report.(invalid := report.invalid + 1)
    else if !r.isWav && r.metadata.value.eventID in t.positions then
      if HasFile(disk, t.events[t.positions[r.metadata.value.eventID]].iqPath) then report
      else report.(relinked := report.relinked + 1)
    else if OwnID(x, r) in t.positions then report
    else report.(recovered := report.recovered + 1)
  }

  /** One of the two loops over the recordings that were not referenced: the table, and the report. */
  function Walked(x: Tools, disk: Disk, referenced: set<string>, rs: seq<Recording>, t: Table, report: Report): (w: (Table, Report))
    requires PositionsInTable(t.events, t.positions)
    ensures PositionsInTable(w.0.events, w.0.positions)
  {
    if rs == [] then (t, report)
    else
      var (before, counts) := Walked(x, disk, referenced, rs[..|rs| - 1], t, report);
      var r := rs[|rs| - 1];
      if r.path in referenced then (before, counts) else (Turn(x, disk, before, r), Counted(x, disk, before, r, counts))
  }

  // The report of the loop over the events.
  function EventCounts(x: Tools, disk: Disk, links: Links, now: int, es: seq<Event>): Report {
    if es == [] then Report(0, 0, 0, 0, 0, 0)
    else
      var counts, o := EventCounts(x, disk, links, now, es[..|es| - 1]), Reconciled(x, disk, links, now, es[|es| - 1]);
      counts.(relinked := counts.relinked + o.relinked, missing := counts.missing + o.missing,
              requeued := counts.requeued + o.requeued, unavailable := counts.unavailable + o.unavailable)
  }

  // Every path the loop over the events notes, relinked or lost.
  function SeenPaths(x: Tools, disk: Disk, links: Links, now: int, es: seq<Event>): set<string> {
    if es == [] then {}
    else SeenPaths(x, disk, links, now, es[..|es| - 1]) + Reconciled(x, disk, links, now, es[|es| - 1]).seen
  }

  function ReconciledAll(x: Tools, disk: Disk, links: Links, now: int, es: seq<Event>): (r: seq<Event>)
    ensures |r| == |es| && forall i | 0 <= i < |es| :: r[i] == Reconciled(x, disk, links, now, es[i]).event
  {
    seq(|es|, i requires 0 <= i < |es| => Reconciled(x, disk, links, now, es[i]).event)
  }

  function OfKind(rs: seq<Recording>, wav: bool): (r: seq<Recording>)
    ensures forall f :: f in r <==> f in rs && f.isWav == wav
  {
    if rs == [] then []
    else
      assert rs == rs[..|rs| - 1] + [rs[|rs| - 1]];
      OfKind(rs[..|rs| - 1], wav) + (if rs[|rs| - 1].isWav == wav then [rs[|rs| - 1]] else [])
  }

  ghost predicate AllSettled(x: Tools, disk: Disk, es: seq<Event>) {
    forall e | e in es :: Settled(x, disk, e)
  }

  /** A turn leaves its recording handled and what was handled handled, keeps every event settled, and
      does nothing at all for a recording that was handled but is not referenced. */
  lemma TurnHandles(x: Tools, disk: Disk, t: Table, r: Recording)
    requires PositionsInTable(t.events, t.positions) && ToolsValid(x) && r.path in disk.present
    ensures var t' := Turn(x, disk, t, r);
            && PositionsInTable(t'.events, t'.positions)
            && Grew(disk, t.events, t.positions, t'.events, t'.positions)
            && Handled(x, disk, t'.events, t'.positions, r)
            && (Handled(x, disk, t.events, t.positions, r) && !Referenced(t.events, r.path) ==> t' == t)
  {
    hide Grew, Handled;
    if r.isWav {
      if x.recoveredID(r.path) !in t.positions && r.facts.Some? { AddHandles(x, disk, t, r, RecoveredWav(x, r)); }
    } else if MetadataUsable(r) {
      var id := r.metadata.value.eventID;
      if id !in t.positions {
        AddHandles(x, disk, t, r, RecoveredIQ(x, r));
      } else if !HasFile(disk, t.events[t.positions[id]].iqPath) {
        RelinkHandles(x, disk, t, r);
      }
    }
    IdleTurn(x, disk, t, r);
  }

  // A turn without effect is over a handled recording, and an unreferenced handled recording has no effect.
  lemma IdleTurn(x: Tools, disk: Disk, t: Table, r: Recording)
    requires PositionsInTable(t.events, t.positions) && r.path in disk.present
    ensures Turn(x, disk, t, r) == t ==> Handled(x, disk, t.events, t.positions, r)
    ensures Handled(x, disk, t.events, t.positions, r) && !Referenced(t.events, r.path) ==> Turn(x, disk, t, r) == t
    ensures Grew(disk, t.events, t.positions, t.events, t.positions)
  {
    hide Settled, Referenced;
    var t' := Turn(x, disk, t, r);
    if t' == t && !r.isWav && MetadataUsable(r) {
      var id := r.metadata.value.eventID;
      if id in t.positions {
        assert t'.events[t.positions[id]] == t.events[t.positions[id]];
      } else {
        assert |t'.events| == |t.events|;
      }
    } else if t' == t {
      assert |t'.events| == |t.events|;
    }
  }

  lemma AddHandles(x: Tools, disk: Disk, t: Table, r: Recording, e: Event)
    requires PositionsInTable(t.events, t.positions) && e.id != ""
    requires e.audioPath == Some(r.path) || e.iqPath == Some(r.path)
    ensures var t' := AddEvent(t, e);
            && PositionsInTable(t'.events, t'.positions)
            && Grew(disk, t.events, t.positions, t'.events, t'.positions)
            && (e.id !in t.positions ==> Handled(x, disk, t'.events, t'.positions, r))
  {
    var t' := AddEvent(t, e);
    if e.id !in t.positions { assert t'.events[|t.events|] == e; }
  }

  lemma RelinkHandles(x: Tools, disk: Disk, t: Table, r: Recording)
    requires PositionsInTable(t.events, t.positions) && r.path in disk.present
    requires !r.isWav && MetadataUsable(r) && r.metadata.value.eventID in t.positions
    requires !HasFile(disk, t.events[t.positions[r.metadata.value.eventID]].iqPath)
    ensures var t' := RelinkEvent(t, t.positions[r.metadata.value.eventID], r.path);
            && PositionsInTable(t'.events, t'.positions)
            && Grew(disk, t.events, t.positions, t'.events, t'.positions)
            && Handled(x, disk, t'.events, t'.positions, r)
  {
    var index := t.positions[r.metadata.value.eventID];
    assert RelinkEvent(t, index, r.path).events[index].iqPath == Some(r.path);
  }

  lemma TurnKeepsSettled(x: Tools, disk: Disk, t: Table, r: Recording)
    requires PositionsInTable(t.events, t.positions) && r.path in disk.present && AllSettled(x, disk, t.events)
    ensures AllSettled(x, disk, Turn(x, disk, t, r).events)
  {
    hide Settled;
    RecoveredSettled(x, disk, r);
    forall e | e in Turn(x, disk, t, r).events ensures Settled(x, disk, e) {
      if e !in t.events && !r.isWav && MetadataUsable(r) && r.metadata.value.eventID in t.positions {
        RelinkSettled(x, disk, t.events[t.positions[r.metadata.value.eventID]], r.path);
      }
    }
  }

  lemma RecoveredSettled(x: Tools, disk: Disk, r: Recording)
    requires r.path in disk.present
    ensures MetadataUsable(r) ==> Settled(x, disk, RecoveredIQ(x, r))
    ensures r.facts.Some? ==> Settled(x, disk, RecoveredWav(x, r))
  {
  }

  lemma RelinkSettled(x: Tools, disk: Disk, e: Event, path: string)
    requires path in disk.present && Settled(x, disk, e)
    ensures Settled(x, disk, e.(iqPath := Some(path)))
  {
  }

  // ---- what the first loop has seen ----

  ghost predicate SeenExactly(disk: Disk, es: seq<Event>, seen: set<string>) {
    forall p | p in disk.present :: p in seen <==> Referenced(es, p)
  }

  lemma SeenMore(x: Tools, disk: Disk, links: Links, now: int, es: seq<Event>, seen: set<string>, e: Event)
    requires DiskValid(disk) && ToolsValid(x) && LinksValid(disk, links) && SeenExactly(disk, es, seen)
    ensures var o := Reconciled(x, disk, links, now, e);
            SeenExactly(disk, es + [o.event], seen + o.seen) && o.event.id == e.id && Settled(x, disk, o.event)
  {
    hide Reconciled, Settled;
    PassSettles(x, disk, links, now, e);
    var o := Reconciled(x, disk, links, now, e);
    forall p ensures Referenced(es + [o.event], p) <==> Referenced(es, p) || o.event.audioPath == Some(p) || o.event.iqPath == Some(p) {
      ReferencedMore(es, o.event, p);
    }
  }

  lemma ReferencedMore(es: seq<Event>, e: Event, p: string)
    ensures Referenced(es + [e], p) <==> Referenced(es, p) || e.audioPath == Some(p) || e.iqPath == Some(p)
  {
    assert (es + [e])[|es|] == e;
    if Referenced(es, p) {
      var i :| 0 <= i < |es| && (es[i].audioPath == Some(p) || es[i].iqPath == Some(p));
      assert (es + [e])[i] == es[i];
    }
  }

  // ---- removal while running ----

  /** ReconcileRemovedMedia's decision about one event; merge stands for mergeUniqueStrings. */
  function Withdrawn(disk: Disk, merge: (seq<string>, seq<string>) -> seq<string>, e: Event): (r: Event)
    ensures r.id == e.id
    ensures r.audioPath.Some? ==> r.audioPath.value in disk.present
    ensures r.iqPath.Some? ==> r.iqPath.value in disk.present
    ensures r.audioPath == e.audioPath && r.iqPath == e.iqPath ==> r == e
    ensures r != e && r.audioPath.None? && r.iqPath.None? ==> r.status != Pending && r.status != Running
  {
    var noAudio := e.audioPath.Some? && e.audioPath.value !in disk.present;
    var noIQ := e.iqPath.Some? && e.iqPath.value !in disk.present;
    if !noAudio && !noIQ then e
    else
      var removed := (if noAudio then ["Missing recording: " + e.audioPath.value] else [])
                   + (if noIQ then ["Missing recording: " + e.iqPath.value] else []);
      var e1 := e.(audioPath := if noAudio then None else e.audioPath, iqPath := if noIQ then None else e.iqPath,
                   mediaIssues := merge(e.mediaIssues, removed));
      if e1.audioPath.None? && e1.iqPath.None? && (e1.status == Pending || e1.status == Running)
      then e1.(status := Unavailable, analysisError := "source recording was removed by retention cleanup", completedAt := None)
      else e1
  }

  // A path that names no file.
  predicate Gone(disk: Disk, path: Option<string>) { path.Some? && path.value !in disk.present }

  function Remark(disk: Disk, path: Option<string>): seq<string> { if Gone(disk, path) then ["Missing recording: " + path.value] else [] }

  predicate Waiting(e: Event) { e.status == Pending || e.status == Running }

  ghost predicate PathCleared(disk: Disk, path: Option<string>, after: Option<string>) {
    if Gone(disk, path) then after == None else after == path
  }

  // An event that waits and keeps no recording cannot be analysed any more; the status of any other stays.
  ghost predicate RetiredLaw(e: Event, after: Event) {
    if after != e && after.audioPath == None && after.iqPath == None && Waiting(e) then
      && after.status == Unavailable && after.completedAt == None
      && after.analysisError == "source recording was removed by retention cleanup"
    else after.status == e.status && after.analysisError == e.analysisError && after.completedAt == e.completedAt
  }

  /** One event before and after: exactly the paths that name no file are cleared, each with a remark, the audio
      first; what that means for its status; and nothing else changes. */
  ghost predicate RemovalLaw(disk: Disk, merge: (seq<string>, seq<string>) -> seq<string>, e: Event, after: Event) {
    && PathCleared(disk, e.audioPath, after.audioPath) && PathCleared(disk, e.iqPath, after.iqPath)
    && after.mediaIssues == (if Gone(disk, e.audioPath) || Gone(disk, e.iqPath)
                             then merge(e.mediaIssues, Remark(disk, e.audioPath) + Remark(disk, e.iqPath)) else e.mediaIssues)
    && RetiredLaw(e, after)
    && e == after.(audioPath := e.audioPath, iqPath := e.iqPath, mediaIssues := e.mediaIssues, status := e.status,
                   analysisError := e.analysisError, completedAt := e.completedAt)
  }

  lemma WithdrawnObeys(disk: Disk, merge: (seq<string>, seq<string>) -> seq<string>, e: Event)
    ensures RemovalLaw(disk, merge, e, Withdrawn(disk, merge, e))
  {
    hide RetiredLaw, Withdrawn;
    WithdrawnRetires(disk, merge, e);
    WithdrawnPaths(disk, merge, e);
    WithdrawnRemarks(disk, merge, e);
  }

  lemma WithdrawnPaths(disk: Disk, merge: (seq<string>, seq<string>) -> seq<string>, e: Event)
    ensures var r := Withdrawn(disk, merge, e);
            && PathCleared(disk, e.audioPath, r.audioPath) && PathCleared(disk, e.iqPath, r.iqPath)
            && e == r.(audioPath := e.audioPath, iqPath := e.iqPath, mediaIssues := e.mediaIssues, status := e.status,
                       analysisError := e.analysisError, completedAt := e.completedAt)
  {
  }

  lemma WithdrawnRemarks(disk: Disk, merge: (seq<string>, seq<string>) -> seq<string>, e: Event)
    ensures Withdrawn(disk, merge, e).mediaIssues ==
            if Gone(disk, e.audioPath) || Gone(disk, e.iqPath)
            then merge(e.mediaIssues, Remark(disk, e.audioPath) + Remark(disk, e.iqPath)) else e.mediaIssues
  {
  }

  lemma WithdrawnRetires(disk: Disk, merge: (seq<string>, seq<string>) -> seq<string>, e: Event)
    ensures RetiredLaw(e, Withdrawn(disk, merge, e))
  {
  }
}
