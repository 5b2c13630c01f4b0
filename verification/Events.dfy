/** The event records of server/internal/app/models.go, and the meaning of the two journals of
    server/internal/app/store.go and event_journal.go: base records, and later whole-record updates
    that replace them by identifier. */
module Events {
  import opened Wrappers

  // The analysis status strings the store gives a meaning to; every other string is Other.
  datatype Status = Pending | Running | Complete | Error | Unavailable | Other(text: string)

  datatype Message = Message(decoderID: string, protocol: string, summary: string, rawText: string)

  datatype Analysis = Analysis(summary: string, callsigns: seq<string>)

  datatype Event = Event(
    id: string, recovered: bool, labelText: Option<string>, startedAt: int, durationSeconds: real,
    frequencyHz: real, noiseDBFS: real, protocolName: Option<string>, confidence: real,
    callsigns: seq<string>, messages: seq<Message>, transcript: Option<string>, analysis: Option<Analysis>,
    audioPath: Option<string>, iqPath: Option<string>, mediaIssues: seq<string>,
    status: Status, analysisError: string, completedAt: Option<int>)

  // isLegacyMapperFalsePositive
  predicate Legacy(e: Event) {
    e.noiseDBFS == 0.0 && e.durationSeconds == 0.2 && e.labelText == Some("Mapper discovery") && e.confidence == 0.72
  }

  function WithoutLegacy(es: seq<Event>): (r: seq<Event>)
    ensures |r| <= |es|
    ensures |r| == |es| <==> forall e | e in es :: !Legacy(e)
    ensures |r| == |es| ==> r == es
  {
    if es == [] then []
    else
      var rest := WithoutLegacy(es[..|es| - 1]);
      assert es == es[..|es| - 1] + [es[|es| - 1]];
      if Legacy(es[|es| - 1]) then rest else rest + [es[|es| - 1]]
  }

  /** Exactly the records that carry all four marks of the old Mapper's false positives are gone, every copy of them, and
      the others stay. */
  ghost predicate Rid(all: seq<Event>, kept: seq<Event>) {
    forall e ::
      multiset(kept)[e] ==
      if e.labelText == Some("Mapper discovery") && e.confidence * 100.0 == 72.0 && e.durationSeconds * 5.0 == 1.0 && e.noiseDBFS == 0.0
      then 0 else multiset(all)[e]
  }

  lemma {:induction false} WithoutLegacyIsRid(es: seq<Event>)
    ensures Rid(es, WithoutLegacy(es))
  {
    if es != [] {
      WithoutLegacyIsRid(es[..|es| - 1]);
      assert es == es[..|es| - 1] + [es[|es| - 1]];
    }
  }

  /** The last position of an identifier, or -1: what overwriting a map from identifier to position
      while walking the table forwards leaves in it. */
  function Find(es: seq<Event>, id: string): (i: int)
    ensures -1 <= i < |es|
    ensures i >= 0 ==> es[i].id == id
    ensures forall k | i < k < |es| :: es[k].id != id
  {
    if es == [] then -1
    else if es[|es| - 1].id == id then |es| - 1
    else Find(es[..|es| - 1], id)
  }

  function Ids(es: seq<Event>): set<string> { set e | e in es :: e.id }

  // An update under the event's identifier that says something else: a restart would put it in the event's place.
  predicate Haunted(updates: seq<Event>, e: Event) {
    Find(updates, e.id) >= 0 && updates[Find(updates, e.id)] != e
  }

  lemma FindIs(es: seq<Event>, i: nat)
    requires i < |es| && forall k | i < k < |es| :: es[k].id != es[i].id
    ensures Find(es, es[i].id) == i
  {
  }

  ghost predicate Unique(es: seq<Event>) {
    forall i, j | 0 <= i < j < |es| :: es[i].id != es[j].id
  }

  function Apply(es: seq<Event>, u: Event): (r: seq<Event>)
    ensures |r| == |es| && forall i | 0 <= i < |es| :: r[i].id == es[i].id
  {
    var i := Find(es, u.id);
    if i < 0 then es else es[i := u]
  }

  /** The table that loading the base records and then the updates produces. */
  function Replay(base: seq<Event>, updates: seq<Event>): (r: seq<Event>)
    ensures |r| == |base| && forall i | 0 <= i < |base| :: r[i].id == base[i].id
  {
    if updates == [] then base
    else Apply(Replay(base, updates[..|updates| - 1]), updates[|updates| - 1])
  }

  lemma ReplayOneMore(base: seq<Event>, updates: seq<Event>, u: Event)
    ensures Replay(base, updates + [u]) == Apply(Replay(base, updates), u)
  {
    assert (updates + [u])[..|updates|] == updates;
  }

  lemma SameIdsSameFind(a: seq<Event>, b: seq<Event>, id: string)
    requires |a| == |b| && forall i | 0 <= i < |a| :: a[i].id == b[i].id
    ensures Find(a, id) == Find(b, id)
  {
  }

  /** Replay without running it: a record is replaced by the last update under its identifier, and
      only the last record under an identifier is. */
  lemma {:induction false} ReplayAt(base: seq<Event>, updates: seq<Event>, i: nat)
    requires i < |base|
    ensures var k := Find(updates, base[i].id);
            Replay(base, updates)[i] == if Find(base, base[i].id) == i && k >= 0 then updates[k] else base[i]
  {
    if updates != [] {
      var before, u := updates[..|updates| - 1], updates[|updates| - 1];
      ReplayAt(base, before, i);
      SameIdsSameFind(base, Replay(base, before), u.id);
    }
  }

  /** Appending a record keeps "memory is what a restart would load" exactly when its identifier has
      no earlier updates, or the last of them and the last base record under it both equal the new one. */
  predicate AppendSafe(base: seq<Event>, updates: seq<Event>, e: Event) {
    var k := Find(updates, e.id);
    k < 0 || (updates[k] == e && (Find(base, e.id) < 0 || base[Find(base, e.id)] == e))
  }

  lemma AppendSafeExactly(base: seq<Event>, updates: seq<Event>, e: Event)
    ensures Replay(base + [e], updates) == Replay(base, updates) + [e] <==> AppendSafe(base, updates, e)
  {
    var k, j := Find(updates, e.id), Find(base, e.id);
    hide Replay, Find;
    var more, was := Replay(base + [e], updates), Replay(base, updates);
    AppendedLast(base, updates, e);
    forall i | 0 <= i < |base| ensures more[i] == was[i] <==> !(i == j && k >= 0 && updates[k] != base[i]) {
      AppendedAt(base, updates, e, i);
    }
    assert more == was + [e] ==> more[|base|] == e && (j >= 0 ==> more[j] == was[j]);
    assert AppendSafe(base, updates, e) ==> more == was + [e];
  }

  lemma AppendedLast(base: seq<Event>, updates: seq<Event>, e: Event)
    ensures var k := Find(updates, e.id);
            Replay(base + [e], updates)[|base|] == if k >= 0 then updates[k] else e
  {
    hide Replay;
    FindIs(base + [e], |base|);
    ReplayAt(base + [e], updates, |base|);
  }

  lemma AppendedAt(base: seq<Event>, updates: seq<Event>, e: Event, i: nat)
    requires i < |base|
    ensures Replay(base + [e], updates)[i] == Replay(base, updates)[i]
       <==> !(i == Find(base, e.id) && Find(updates, e.id) >= 0 && updates[Find(updates, e.id)] != base[i])
  {
    hide Replay;
    ReplayAt(base + [e], updates, i);
    ReplayAt(base, updates, i);
    if base[i].id == e.id { FindIs(base + [e], |base|); } else { FindBefore(base, e, base[i].id); }
  }

  lemma FindBefore(base: seq<Event>, e: Event, id: string)
    requires e.id != id
    ensures Find(base + [e], id) == Find(base, id)
  {
    assert (base + [e])[..|base|] == base;
  }

  lemma FindIn(es: seq<Event>, id: string)
    ensures Find(es, id) >= 0 <==> exists i | 0 <= i < |es| :: es[i].id == id
  {
  }

  /** The case is reachable: a dropped legacy record leaves its updates behind, and a later record
      under the same identifier is overwritten by them at the next start. */
  lemma LegacyUpdateComesBack(legacy: Event, update: Event, again: Event)
    requires Legacy(legacy) && update.id == legacy.id == again.id && update != again
    ensures var base := WithoutLegacy([legacy]);
            && Replay(base, [update]) == []
            && Replay(base + [again], [update]) == [update] != [again]
  {
    assert WithoutLegacy([legacy]) == [] by { assert [legacy][..0] == []; }
    ReplayAt([again], [update], 0);
  }
}
