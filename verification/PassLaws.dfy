/** What the loop over the events in the startup pass of server/internal/app/media_recovery.go makes of each event,
    field by field, in terms of the event before it, the recordings on disk and the text cleaners; and what its
    report counts. */
module PassLaws {
  import opened Wrappers
  import opened Events
  import opened Media

  // ---- what the cleaners find ----

  // Some message is no decoder evidence, or the transcript is not a clean one.
  predicate Tainted(x: Tools, e: Event) { Foul(x, e) || Noisy(x, e) }

  predicate Foul(x: Tools, e: Event) { exists m :: m in e.messages && !x.isEvidence(m) }

  predicate Noisy(x: Tools, e: Event) { e.transcript.Some? && x.cleanTranscript(e.transcript.value) != e.transcript.value }

  predicate WasCut(e: Event) {
    e.status == Running || (e.status == Error && e.analysisError in {"context canceled", "context deadline exceeded"})
  }

  predicate HadRecording(e: Event) { e.audioPath != None || e.iqPath != None }

  // ---- the status ----

  /** The status after the pass.  An event that lost its last recording leaves the queue; cleaned evidence with a
      recording is analysed again; work with a result whose end was not noted is complete now; interrupted work is
      pending; and everything else stays. */
  predicate StatusLaw(x: Tools, now: int, e: Event, after: Event) {
    if HadRecording(e) && !HadRecording(after) then
      after.status == Unavailable && after.analysisError == "source recording was removed by retention cleanup" && after.completedAt == None
    else if Tainted(x, e) && HadRecording(after) then
      after.status == Pending && after.analysisError == "" && after.completedAt == None
    else if e.analysis.Some? && !Tainted(x, e) && (WasCut(e) || (e.status == Pending && e.completedAt == None)) then
      after.status == Complete && after.analysisError == "" && after.completedAt == Some(now)
    else if WasCut(e) then
      after.status == Pending && after.analysisError == "" && after.completedAt == None
    else
      after.status == e.status && after.analysisError == e.analysisError && after.completedAt == e.completedAt
  }

  // ---- the paths ----

  /** A path that is empty or exists stays; another becomes that of the one recording with its file name, or is lost. */
  ghost predicate PathLaw(x: Tools, disk: Disk, path: Option<string>, after: Option<string>) {
    if path == None || path == Some("") || path.value in disk.present then after == path
    else if after.Some? then
      var name := x.baseName(path.value);
      !Shared(disk.recordings, name) && Named(disk.recordings, name, after.value)
    else
      var name := x.baseName(path.value);
      Shared(disk.recordings, name) || !Present(disk.recordings, name)
  }

  predicate Lost(path: Option<string>, after: Option<string>) { path.Some? && after.None? }

  predicate Moved(path: Option<string>, after: Option<string>) { path.Some? && after.Some? && after != path }

  function IssueOf(path: Option<string>, after: Option<string>): seq<string> {
    if Lost(path, after) then ["Missing recording: " + path.value] else []
  }

  // ---- the texts ----

  // The list of callsigns as it is kept.
  function Signs(x: Tools, signs: seq<string>): seq<string> { if signs == [] then [] else x.extractCallsigns(signs) }

  ghost predicate TextLaw(x: Tools, e: Event, after: Event) {
    && (forall m :: multiset(after.messages)[m] == if x.isEvidence(m) then multiset(e.messages)[m] else 0)
    && after.callsigns == Signs(x, e.callsigns)
    && after.transcript == (if e.transcript.None? || (x.cleanTranscript(e.transcript.value) == "" && e.transcript.value != "") then None
                            else Some(x.cleanTranscript(e.transcript.value)))
    && (Tainted(x, e) || e.analysis.None? ==> after.analysis == None)
    && (!Tainted(x, e) && e.analysis.Some? ==>
          && after.analysis.Some? && after.analysis.value.summary == e.analysis.value.summary
          && after.analysis.value.callsigns == Signs(x, e.analysis.value.callsigns))
    && (if e.messages != [] && after.messages == [] then after.protocolName == None && after.confidence == Least(e.confidence, 0.72)
        else after.protocolName == e.protocolName && after.confidence == e.confidence)
  }

  function Least(a: real, b: real): real { if b < a then b else a }

  ghost predicate Untouched(e: Event, after: Event) {
    && after.id == e.id && after.recovered == e.recovered && after.labelText == e.labelText && after.startedAt == e.startedAt
    && after.durationSeconds == e.durationSeconds && after.frequencyHz == e.frequencyHz && after.noiseDBFS == e.noiseDBFS
  }

  /** One event before and after the pass. */
  ghost predicate PassLaw(x: Tools, disk: Disk, now: int, e: Event, after: Event) {
    && Untouched(e, after) && TextLaw(x, e, after) && StatusLaw(x, now, e, after)
    && PathLaw(x, disk, e.audioPath, after.audioPath) && PathLaw(x, disk, e.iqPath, after.iqPath)
    && after.mediaIssues == (if e.status == Unavailable then e.mediaIssues else [])
                          + IssueOf(e.audioPath, after.audioPath) + IssueOf(e.iqPath, after.iqPath)
  }

  // ---- the pass obeys ----

  lemma {:induction false} EvidenceExactly(x: Tools, messages: seq<Message>, m: Message)
    ensures multiset(Evidence(x, messages))[m] == if x.isEvidence(m) then multiset(messages)[m] else 0
  {
    if messages != [] {
      EvidenceExactly(x, messages[..|messages| - 1], m);
      assert messages == messages[..|messages| - 1] + [messages[|messages| - 1]];
    }
  }

  /** The evidence stays in its order. */
  lemma {:induction false} EvidenceInOrder(x: Tools, a: seq<Message>, b: seq<Message>)
    ensures Evidence(x, a + b) == Evidence(x, a) + Evidence(x, b)
  {
    if b == [] {
      assert a + b == a;
    } else {
      EvidenceInOrder(x, a, b[..|b| - 1]);
      assert (a + b)[..|a + b| - 1] == a + b[..|b| - 1] && (a + b)[|a + b| - 1] == b[|b| - 1];
    }
  }

  lemma EvidenceCleaned(x: Tools, e: Event)
    ensures var (c, dropped) := CleanEvidence(x, e);
            && (dropped <==> Foul(x, e))
            && (forall m :: multiset(c.messages)[m] == if x.isEvidence(m) then multiset(e.messages)[m] else 0)
            && c.analysis == (if Foul(x, e) then None else e.analysis)
            && c.protocolName == (if e.messages != [] && c.messages == [] then None else e.protocolName)
            && c.confidence == (if e.messages != [] && c.messages == [] then Least(e.confidence, 0.72) else e.confidence)
            && c == e.(messages := c.messages, analysis := c.analysis, protocolName := c.protocolName, confidence := c.confidence)
  {
    hide Evidence;
    forall m ensures multiset(Evidence(x, e.messages))[m] == if x.isEvidence(m) then multiset(e.messages)[m] else 0 {
      EvidenceExactly(x, e.messages, m);
    }
  }

  lemma CallsignsCleaned(x: Tools, e: Event)
    ensures var c := CleanCallsigns(x, e);
            && c.callsigns == Signs(x, e.callsigns)
            && c.analysis == (if e.analysis.None? then None else Some(Analysis(e.analysis.value.summary, Signs(x, e.analysis.value.callsigns))))
            && c == e.(callsigns := c.callsigns, analysis := c.analysis)
  {
  }

  lemma TranscriptCleaned(x: Tools, e: Event)
    ensures var (c, changed) := CleanTranscript(x, e);
            && (changed <==> Noisy(x, e)) && c.analysis == (if Noisy(x, e) then None else e.analysis)
            && c.transcript == (if e.transcript.None? || (x.cleanTranscript(e.transcript.value) == "" && e.transcript.value != "") then None
                                else Some(x.cleanTranscript(e.transcript.value)))
            && c == e.(transcript := c.transcript, analysis := c.analysis)
  {
  }

  lemma CleanedTexts(x: Tools, e: Event)
    ensures var (c, again) := Cleaned(x, e);
            && TextLaw(x, e, c) && Untouched(e, c) && SameFate(c, e) && (again <==> Tainted(x, e))
            && c.mediaIssues == if e.status == Unavailable then e.mediaIssues else []
  {
    hide CleanEvidence, CleanCallsigns, CleanTranscript, Signs, Least;
    var e0 := if e.status != Unavailable then e.(mediaIssues := []) else e;
    EvidenceCleaned(x, e0);
    var e1 := CleanEvidence(x, e0).0;
    CallsignsCleaned(x, e1);
    TranscriptCleaned(x, CleanCallsigns(x, e1));
  }

  lemma ResolvedPath(x: Tools, disk: Disk, path: Option<string>)
    requires DiskValid(disk)
    ensures var r := Resolve(x, disk, LinksOf(disk.recordings), path);
            && PathLaw(x, disk, path, r.path) && r.issues == IssueOf(path, r.path)
            && r.relinked == (if Moved(path, r.path) then 1 else 0) && r.missing == (if Lost(path, r.path) then 1 else 0)
  {
    hide LinksOf;
    if path.Some? {
      LinksExactly(disk.recordings, x.baseName(path.value));
      if x.baseName(path.value) in LinksOf(disk.recordings).files { LinkedIsPresent(disk, x.baseName(path.value)); }
    }
  }

  // The status, the error and the completion time of an event; everything else of it.
  datatype Standing = Standing(status: Status, error: string, completedAt: Option<int>)

  function StandingOf(e: Event): Standing { Standing(e.status, e.analysisError, e.completedAt) }

  predicate SameApart(a: Event, b: Event) {
    a == b.(status := a.status, analysisError := a.analysisError, completedAt := a.completedAt)
  }

  lemma ResumedStanding(e: Event)
    ensures StandingOf(Resumed(e)) == (if WasCut(e) then Standing(Pending, "", None) else StandingOf(e)) && SameApart(Resumed(e), e)
  {
  }

  lemma FinishedStanding(now: int, e: Event)
    ensures StandingOf(Finished(now, e))
         == if e.status == Pending && e.analysis.Some? && e.completedAt == None then Standing(Complete, "", Some(now)) else StandingOf(e)
    ensures SameApart(Finished(now, e), e)
  {
  }

  lemma LastStanding(again: bool, lost: bool, e: Event)
    ensures StandingOf(Retired(lost, Requeued(again, e)))
         == if lost then Standing(Unavailable, "source recording was removed by retention cleanup", None)
            else if again then Standing(Pending, "", None) else StandingOf(e)
    ensures SameApart(Retired(lost, Requeued(again, e)), e)
  {
  }

  lemma ApartTogether(a: Event, b: Event, c: Event)
    requires SameApart(a, b) && SameApart(b, c)
    ensures SameApart(a, c) && a.analysis == c.analysis && a.audioPath == c.audioPath && a.iqPath == c.iqPath
    ensures SameApart(c, c) && b.analysis == c.analysis
  {
  }

  lemma RestatedStatus(x: Tools, now: int, e: Event, linked: Event)
    requires StandingOf(linked) == StandingOf(e)
    requires linked.analysis.Some? <==> e.analysis.Some? && !Tainted(x, e)
    ensures StatusLaw(x, now, e, Restated(now, HadRecording(e), Tainted(x, e), linked).event)
    ensures SameApart(Restated(now, HadRecording(e), Tainted(x, e), linked).event, linked)
  {
    hide Tainted, Resumed, Finished, Requeued, Retired, SameApart;
    var e2 := Resumed(linked);
    var e3 := Finished(now, e2);
    var kept := HadRecording(linked);
    var e5 := Retired(HadRecording(e) && !kept, Requeued(Tainted(x, e) && kept, e3));
    ResumedStanding(linked);
    FinishedStanding(now, e2);
    LastStanding(Tainted(x, e) && kept, HadRecording(e) && !kept, e3);
    ApartTogether(e3, e2, linked);
    ApartTogether(e5, e3, linked);
  }

  lemma RestatedCounts(now: int, had: bool, again: bool, linked: Event)
    ensures var v := Restated(now, had, again, linked);
            && v.requeued == (if WasCut(linked) then 1 else 0) + (if again && HadRecording(linked) then 1 else 0)
            && v.unavailable == (if had && !HadRecording(linked) then 1 else 0)
  {
    hide Resumed, Finished, Requeued, Retired;
  }

  lemma SameCut(e: Event, linked: Event)
    requires linked.status == e.status && linked.analysisError == e.analysisError
    ensures WasCut(linked) <==> WasCut(e)
  {
  }

  /** The turn of the loop obeys the law, and counts what it says. */
  lemma TurnObeys(x: Tools, disk: Disk, now: int, e: Event)
    requires DiskValid(disk)
    ensures var o := Reconciled(x, disk, LinksOf(disk.recordings), now, e);
            && PassLaw(x, disk, now, e, o.event)
            && o.requeued == Requeues(x, e, o.event) && o.unavailable == (if LeftQueue(e, o.event) then 1 else 0)
            && o.relinked == (if Moved(e.audioPath, o.event.audioPath) then 1 else 0) + (if Moved(e.iqPath, o.event.iqPath) then 1 else 0)
            && o.missing == (if Lost(e.audioPath, o.event.audioPath) then 1 else 0) + (if Lost(e.iqPath, o.event.iqPath) then 1 else 0)
  {
    hide Cleaned, Resolve, Restated, LinksOf, Tainted, StatusLaw, PathLaw, WasCut;
    var links := LinksOf(disk.recordings);
    var (c, again) := Cleaned(x, e);
    CleanedTexts(x, e);
    ResolvedPath(x, disk, e.audioPath);
    ResolvedPath(x, disk, e.iqPath);
    var linked := Linked(Resolve(x, disk, links, c.audioPath), Resolve(x, disk, links, c.iqPath), c);
    RestatedStatus(x, now, e, linked);
    RestatedCounts(now, HadRecording(e), Tainted(x, e), linked);
    SameCut(e, linked);
  }

  // ---- the report ----

  function Requeues(x: Tools, e: Event, after: Event): nat {
    (if WasCut(e) then 1 else 0) + (if Tainted(x, e) && HadRecording(after) then 1 else 0)
  }

  predicate LeftQueue(e: Event, after: Event) { HadRecording(e) && !HadRecording(after) }

  // How many of the events, before and after, are so.
  ghost function Number(es: seq<Event>, after: seq<Event>, p: (Event, Event) -> bool): nat
    requires |es| == |after|
  {
    |set i | 0 <= i < |es| && p(es[i], after[i])|
  }

  lemma NumberMore(es: seq<Event>, after: seq<Event>, p: (Event, Event) -> bool)
    requires |es| == |after| > 0
    ensures var n := |es| - 1;
            Number(es, after, p) == Number(es[..n], after[..n], p) + if p(es[n], after[n]) then 1 else 0
  {
    var n := |es| - 1;
    var whole, part := set i | 0 <= i < |es| && p(es[i], after[i]), set i | 0 <= i < n && p(es[..n][i], after[..n][i]);
    assert whole == part + if p(es[n], after[n]) then {n} else {};
  }

  /** The table before and after the loop, and its report: requeued are the interrupted events and those analysed
      again, unavailable the ones that lost their last recording, relinked and missing the paths. */
  ghost predicate LoopLaw(x: Tools, disk: Disk, now: int, es: seq<Event>, after: seq<Event>, report: Report) {
    && |after| == |es| && (forall i | 0 <= i < |es| :: PassLaw(x, disk, now, es[i], after[i]))
    && report.requeued == Number(es, after, (e: Event, a: Event) => WasCut(e))
                        + Number(es, after, (e: Event, a: Event) => Tainted(x, e) && HadRecording(a))
    && report.unavailable == Number(es, after, (e: Event, a: Event) => HadRecording(e) && !HadRecording(a))
    && report.relinked == Number(es, after, (e: Event, a: Event) => Moved(e.audioPath, a.audioPath))
                        + Number(es, after, (e: Event, a: Event) => Moved(e.iqPath, a.iqPath))
    && report.missing == Number(es, after, (e: Event, a: Event) => Lost(e.audioPath, a.audioPath))
                       + Number(es, after, (e: Event, a: Event) => Lost(e.iqPath, a.iqPath))
    && report.recovered == report.invalid == 0
  }

  lemma {:induction false} LoopObeys(x: Tools, disk: Disk, now: int, es: seq<Event>)
    requires DiskValid(disk)
    ensures var links := LinksOf(disk.recordings);
            LoopLaw(x, disk, now, es, ReconciledAll(x, disk, links, now, es), EventCounts(x, disk, links, now, es))
  {
    hide PassLaw, Reconciled, LinksOf, Number, DiskValid;
    var links := LinksOf(disk.recordings);
    var after := ReconciledAll(x, disk, links, now, es);
    if es == [] {
      NumberNone((e: Event, a: Event) => WasCut(e));
      NumberNone((e: Event, a: Event) => Tainted(x, e) && HadRecording(a));
      NumberNone((e: Event, a: Event) => HadRecording(e) && !HadRecording(a));
      NumberNone((e: Event, a: Event) => Moved(e.audioPath, a.audioPath));
      NumberNone((e: Event, a: Event) => Moved(e.iqPath, a.iqPath));
      NumberNone((e: Event, a: Event) => Lost(e.audioPath, a.audioPath));
      NumberNone((e: Event, a: Event) => Lost(e.iqPath, a.iqPath));
    } else {
      var n := |es| - 1;
      LoopObeys(x, disk, now, es[..n]);
      assert ReconciledAll(x, disk, links, now, es[..n]) == after[..n];
      forall i | 0 <= i < |es| ensures PassLaw(x, disk, now, es[i], after[i]) { TurnObeys(x, disk, now, es[i]); }
      TurnObeys(x, disk, now, es[n]);
      NumberMore(es, after, (e: Event, a: Event) => WasCut(e));
      NumberMore(es, after, (e: Event, a: Event) => Tainted(x, e) && HadRecording(a));
      NumberMore(es, after, (e: Event, a: Event) => HadRecording(e) && !HadRecording(a));
      NumberMore(es, after, (e: Event, a: Event) => Moved(e.audioPath, a.audioPath));
      NumberMore(es, after, (e: Event, a: Event) => Moved(e.iqPath, a.iqPath));
      NumberMore(es, after, (e: Event, a: Event) => Lost(e.audioPath, a.audioPath));
      NumberMore(es, after, (e: Event, a: Event) => Lost(e.iqPath, a.iqPath));
    }
  }

  lemma NumberNone(p: (Event, Event) -> bool)
    ensures Number([], [], p) == 0
  {
  }
}
