/** Whole lives of the event store: appends, updates, removed recordings, crashes, restarts and startup passes
    in any order.  server/internal/app/runtime.go opens the store and at once runs ReconcileMedia. */
module StoreRuns {
  import opened Bytes
  import opened Wrappers
  import opened Journal
  import opened Events
  import opened Media
  import opened Recoveries
  import opened Store
  import opened StoreCrashes
  import opened WalkLaws

  datatype Op =
    | Add(e: Event)
    | Change(id: string, change: Event -> Event)
    | Withdraw(disk: Disk, merge: (seq<string>, seq<string>) -> seq<string>)
    | Restart
    | Startup(x: Tools, disk: Disk, now: int)                    // a restart, and then the pass over the media
    | CrashAdd(e: Event, cut: nat)                               // the process dies cut bytes into the append, and restarts
    | CrashChange(id: string, change: Event -> Event, cut: nat)
    | CrashWithdraw(disk: Disk, merge: (seq<string>, seq<string>) -> seq<string>, cut: nat)
    | CrashStartup(x: Tools, disk: Disk, now: int, point: CrashPoint)   // a restart, a pass cut short, and a restart

  // The identifiers a startup pass can recover.
  function Recoverable(x: Tools, disk: Disk): set<string> { set r | r in disk.recordings :: OwnID(x, r) }

  function LegacyIds(es: seq<Event>): set<string> { set e | e in es && Legacy(e) :: e.id }

  // used: identifiers that records or updates may carry by now; dead: those a restart may drop or has dropped.
  function UsedAfter(op: Op, used: set<string>): set<string> {
    match op
    case Add(e) => used + {e.id}
    case CrashAdd(e, _) => used + {e.id}
    case Startup(x, disk, _) => used + Recoverable(x, disk)
    case CrashStartup(x, disk, _, _) => used + Recoverable(x, disk)
    case _ => used
  }

  function DeadAfter(op: Op, dead: set<string>): set<string> {
    match op
    case Add(e) => if Legacy(e) then dead + {e.id} else dead
    case CrashAdd(e, _) => if Legacy(e) then dead + {e.id} else dead
    case _ => dead
  }

  /** What callers must respect: new events have new identifiers, updates keep theirs, and no recording
      on disk names an identifier that was dropped as legacy. */
  ghost predicate Lawful(op: Op, used: set<string>, dead: set<string>) {
    match op
    case Add(e) => e.id !in used
    case CrashAdd(e, _) => e.id !in used
    case Change(_, change) => forall e: Event :: change(e).id == e.id
    case CrashChange(_, change, _) => forall e: Event :: change(e).id == e.id
    case Startup(x, disk, _) => DiskValid(disk) && ToolsValid(x) && Recoverable(x, disk) !! dead
    case CrashStartup(x, disk, _, _) => DiskValid(disk) && ToolsValid(x)
    case _ => true
  }

  ghost predicate AllLawful(ops: seq<Op>, used: set<string>, dead: set<string>)
    decreases |ops|
  {
    |ops| > 0 ==> Lawful(ops[0], used, dead) && AllLawful(ops[1..], UsedAfter(ops[0], used), DeadAfter(ops[0], dead))
  }

  /** Every record and update is accounted for, and an update without a record is about a dropped one. */
  ghost predicate Sound(base: seq<Event>, updates: seq<Event>, used: set<string>, dead: set<string>) {
    && Unique(base) && Ids(base) <= used && Ids(updates) <= used
    && (forall u | u in updates :: u.id in Ids(base) || u.id in dead)
    && LegacyIds(base) <= dead
  }

  lemma SoundAppend(base: seq<Event>, updates: seq<Event>, used: set<string>, dead: set<string>, e: Event)
    requires Sound(base, updates, used, dead) && e.id !in used
    ensures Sound(base + [e], updates, used + {e.id}, if Legacy(e) then dead + {e.id} else dead)
    ensures AppendSafe(base, updates, e)
  {
    hide Legacy;
    FindIn(updates, e.id);
    assert forall b | b in base :: b.id in Ids(base);
    assert forall u | u in updates :: u.id in Ids(updates);
  }

  lemma SoundUpdates(base: seq<Event>, updates: seq<Event>, after: seq<Event>, used: set<string>, dead: set<string>)
    requires Sound(base, updates, used, dead) && Adds(base, updates, after)
    ensures Sound(base, after, used, dead)
  {
    hide Legacy;
    assert after == updates + after[|updates|..];
  }

  lemma SoundWithoutLegacy(base: seq<Event>, updates: seq<Event>, used: set<string>, dead: set<string>)
    requires Sound(base, updates, used, dead)
    ensures Sound(WithoutLegacy(base), updates, used, dead)
  {
    hide Legacy;
    LegacyLeaves(base);
  }

  lemma {:induction false} LegacyMembers(es: seq<Event>)
    ensures forall e :: e in WithoutLegacy(es) <==> e in es && !Legacy(e)
  {
    hide Legacy;
    if es != [] {
      LegacyMembers(es[..|es| - 1]);
      assert es == es[..|es| - 1] + [es[|es| - 1]];
    }
  }

  lemma {:induction false} LegacyUnique(es: seq<Event>)
    requires Unique(es)
    ensures Unique(WithoutLegacy(es))
  {
    hide Legacy, Unique;
    if es == [] {
      NoneUnique();
    } else {
      var init, last := es[..|es| - 1], es[|es| - 1];
      assert es == init + [last];
      UniqueInit(init, last);
      LegacyUnique(init);
      LegacyMembers(init);
      UniqueLast(init, last, WithoutLegacy(init));
    }
  }

  lemma NoneUnique()
    ensures Unique([])
  {
  }

  lemma UniqueInit(init: seq<Event>, last: Event)
    requires Unique(init + [last])
    ensures Unique(init)
  {
    assert forall i | 0 <= i < |init| :: init[i] == (init + [last])[i];
  }

  lemma UniqueLast(init: seq<Event>, last: Event, rest: seq<Event>)
    requires Unique(init + [last]) && Unique(rest) && forall e | e in rest :: e in init
    ensures Unique(rest + [last])
  {
    var es := init + [last];
    forall i | 0 <= i < |rest| ensures rest[i].id != last.id {
      assert rest[i] in init;
      var j :| 0 <= j < |init| && init[j] == rest[i];
      assert es[j].id != es[|init|].id;
    }
  }

  lemma LegacyLeaves(es: seq<Event>)
    requires Unique(es)
    ensures Unique(WithoutLegacy(es)) && LegacyIds(WithoutLegacy(es)) == {}
    ensures Ids(WithoutLegacy(es)) <= Ids(es) <= Ids(WithoutLegacy(es)) + LegacyIds(es)
  {
    hide Legacy, WithoutLegacy, Unique;
    LegacyUnique(es);
    LegacyMembers(es);
  }

  // After a startup pass nothing recovered is haunted, and everything stays accounted for.
  lemma SoundStartup(x: Tools, disk: Disk, now: int, base0: seq<Event>, updates0: seq<Event>, t0: Table,
                     base: seq<Event>, updates: seq<Event>, t: Table, report: Report, used: set<string>, dead: set<string>)
    requires Sound(base0, updates0, used, dead) && Recoverable(x, disk) !! dead
    requires Indexed(t0.events, t0.positions) && |t0.events| == |base0| && forall i | 0 <= i < |base0| :: t0.events[i].id == base0[i].id
    requires Restored(x, disk, now, base0, updates0, t0, base, updates, t, report)
    ensures NoneHaunted(updates0, base[|base0|..])
    ensures Sound(base, updates, used + Recoverable(x, disk), dead)
  {
    hide Legacy, Find, StartupPass, Reconciliation, NothingDone;
    var recovered := base[|base0|..];
    assert base == base0 + recovered;
    forall e | e in recovered ensures e.id in Recoverable(x, disk) && e.id !in Ids(base0) && !Legacy(e) {
      assert Fresh(x, disk.recordings, e, t0.positions);
      NotInTable(base0, t0, e.id);
    }
    forall e | e in recovered ensures !Haunted(updates0, e) { FindIn(updates0, e.id); }
    SameIdsUnique(t.events, base);
    SoundUpdates(base0, updates0, updates, used, dead);
  }

  lemma NotInTable(base: seq<Event>, t: Table, id: string)
    requires Indexed(t.events, t.positions) && |t.events| == |base| && forall i | 0 <= i < |base| :: t.events[i].id == base[i].id
    requires id !in t.positions
    ensures id !in Ids(base)
  {
    assert Find(t.events, id) < 0;
    FindIn(t.events, id);
  }

  // The update a change of an identifier writes, if the table has it.
  function UpdateOf(es: seq<Event>, id: string, change: Event -> Event): seq<Event> {
    var k := Find(es, id);
    if k < 0 then [] else [change(es[k])]
  }

  /** What one operation leaves in the two journals.  A restart takes out the legacy records and nothing else; a
      crash keeps of its one record all or nothing, and of a batch the first records; a startup pass adds recovered
      events and updates. */
  ghost predicate Follows(c: Codec<Event>, op: Op, base: seq<Event>, updates: seq<Event>, base': seq<Event>, updates': seq<Event>) {
    var es := Replay(base, updates);
    match op
    case Add(e) => base' == base + [e] && updates' == updates
    case Change(id, change) => base' == base && updates' == updates + UpdateOf(es, id, change)
    case Withdraw(disk, merge) =>
      base' == base && updates' == updates + Changes(es, AllWithdrawn(disk, merge, es))
    case Restart => base' == WithoutLegacy(base) && updates' == updates
    case Startup(x, disk, now) => PassFollows(x, disk, now, WithoutLegacy(base), updates, base', updates')
    case CrashAdd(e, cut) => base' == WithoutLegacy(base + [e][..Kept(c, [e], cut)]) && updates' == updates
    case CrashChange(id, change, cut) =>
      var u := UpdateOf(es, id, change);
      base' == WithoutLegacy(base) && updates' == updates + u[..Kept(c, u, cut)]
    case CrashWithdraw(disk, merge, cut) =>
      var u := Changes(es, AllWithdrawn(disk, merge, es));
      base' == WithoutLegacy(base) && updates' == updates + u[..Kept(c, u, cut)]
    case CrashStartup(x, disk, now, point) =>
      exists t: Table | CutPass(c, x, disk, now, point, t, WithoutLegacy(base), updates, base', updates') ::
        t.events == Replay(WithoutLegacy(base), updates) && Indexed(t.events, t.positions)
  }

  ghost predicate PassFollows(x: Tools, disk: Disk, now: int, base: seq<Event>, updates: seq<Event>,
                              base': seq<Event>, updates': seq<Event>) {
    exists t: Table, t': Table, report: Report | Restored(x, disk, now, base, updates, t, base', updates', t', report) ::
      && t.events == Replay(base, updates) && Indexed(t.events, t.positions)
      && t'.events == Replay(base', updates') && Indexed(t'.events, t'.positions)
  }

  // ---- nothing is lost ----

  lemma {:induction false} LegacyOfSum(a: seq<Event>, b: seq<Event>)
    ensures WithoutLegacy(a + b) == WithoutLegacy(a) + WithoutLegacy(b)
  {
    hide Legacy;
    if b == [] {
      assert a + b == a;
    } else {
      var init, last := b[..|b| - 1], b[|b| - 1];
      LegacyOfSum(a, init);
      assert (a + b)[..|a + b| - 1] == a + init && (a + b)[|a + b| - 1] == last;
    }
  }

  lemma LegacyTwice(es: seq<Event>)
    ensures WithoutLegacy(WithoutLegacy(es)) == WithoutLegacy(es)
  {
    hide WithoutLegacy, Legacy;
    LegacyMembers(es);
  }

  // The records that are not legacy, and all updates, stay where they are; what is new comes behind them.
  ghost predicate Keeps(base: seq<Event>, updates: seq<Event>, base': seq<Event>, updates': seq<Event>) {
    WithoutLegacy(base) <= WithoutLegacy(base') && updates <= updates'
  }

  lemma KeepsMore(base: seq<Event>, more: seq<Event>)
    ensures WithoutLegacy(base) <= WithoutLegacy(base + more)
  {
    LegacyOfSum(base, more);
  }

  lemma FollowsKeeps(c: Codec<Event>, op: Op, base: seq<Event>, updates: seq<Event>, base': seq<Event>, updates': seq<Event>)
    requires Follows(c, op, base, updates, base', updates')
    ensures Keeps(base, updates, base', updates')
    ensures op.Add? && !Legacy(op.e) ==> op.e in base'
  {
    hide Legacy, Replay, Kept, Changes, UpdateOf, WithoutLegacy, Reconciliation, StartupPass, Fresh, NothingDone, Indexed, Unique;
    hide PassUpdates, PassGains, UpdatesLeft;
    LegacyTwice(base);
    match op {
      case Add(e) => KeepsMore(base, [e]);
      case CrashAdd(e, cut) =>
        var kept := [e][..Kept(c, [e], cut)];
        LegacyTwice(base + kept);
        KeepsMore(base, kept);
      case Startup(x, disk, now) =>
        var t, t', report :| Restored(x, disk, now, WithoutLegacy(base), updates, t, base', updates', t', report);
        KeepsMore(WithoutLegacy(base), base'[|WithoutLegacy(base)|..]);
        assert base' == WithoutLegacy(base) + base'[|WithoutLegacy(base)|..];
      case CrashStartup(x, disk, now, point) =>
        var t :| CutPass(c, x, disk, now, point, t, WithoutLegacy(base), updates, base', updates');
        var gains := PassGains(x, disk, now, t);
        var kept := gains[..RecordsLeft(c, point, gains)];
        LegacyTwice(WithoutLegacy(base) + kept);
        KeepsMore(WithoutLegacy(base), kept);
      case _ =>
    }
  }

  // The events that were appended, and that no restart drops.
  ghost predicate AllThere(ops: seq<Op>, base: seq<Event>) {
    forall k | 0 <= k < |ops| && ops[k].Add? && !Legacy(ops[k].e) :: ops[k].e in base
  }

  lemma KeepsTogether(ops: seq<Op>, base: seq<Event>, updates: seq<Event>, base1: seq<Event>, updates1: seq<Event>,
                      base': seq<Event>, updates': seq<Event>)
    requires |ops| > 0 && Keeps(base, updates, base1, updates1) && Keeps(base1, updates1, base', updates')
    requires (ops[0].Add? && !Legacy(ops[0].e) ==> ops[0].e in base1) && AllThere(ops[1..], base')
    ensures Keeps(base, updates, base', updates') && AllThere(ops, base')
  {
    hide Legacy, WithoutLegacy;
    LegacyMembers(base1);
    LegacyMembers(base');
    forall k | 0 <= k < |ops| && ops[k].Add? && !Legacy(ops[k].e) ensures ops[k].e in base' {
      if k > 0 { assert ops[1..][k - 1] == ops[k]; }
    }
  }

  // One operation of a run.
  method Do(s: EventStore, op: Op, ghost used: set<string>, ghost dead: set<string>) returns (ok: bool)
    requires s.Valid() && Sound(s.base, s.updates, used, dead) && Lawful(op, used, dead)
    modifies s
    ensures ok && s.Valid() && Sound(s.base, s.updates, UsedAfter(op, used), DeadAfter(op, dead))
    ensures Follows(s.codec, op, old(s.base), old(s.updates), s.base, s.updates)
  {
    hide Sound, Replay, Indexed, Encoded, JsonLike, WithoutLegacy, Kept, Restored, NoneHaunted, Withdrawn, Changes, UpdateOf;
    hide StartupLaw, NoneComesBack, Gains, Noted, WalkOrder;
    ok := true;
    UniqueTable(s.base, s.updates, used, dead);
    ghost var base, updates, es := s.base, s.updates, s.events;
    match op {
      case Add(e) =>
        SoundAppend(base, updates, used, dead, e);
        s.Append(e);
      case Change(id, change) =>
        var found := s.Update(id, change);
        UpdateAdds(base, updates, s.updates, s.events, s.positions, id, found);
        UpdateOfIndex(es, s.positions, id, change);
        SoundUpdates(base, updates, s.updates, used, dead);
      case Withdraw(disk, merge) =>
        var _ := s.ReconcileRemovedMedia(disk, merge);
        ChangesAdded(base, updates, s.updates, es, s.events);
        assert s.events == AllWithdrawn(disk, merge, es);
        SoundUpdates(base, updates, s.updates, used, dead);
      case Restart =>
        ok := s.ReopenUnchanged();
        SoundWithoutLegacy(base, updates, used, dead);
      case Startup(x, disk, now) =>
        ok := s.ReopenUnchanged();
        SoundWithoutLegacy(base, updates, used, dead);
        UniqueTable(s.base, s.updates, used, dead);
        ghost var base1, updates1, t1 := s.base, s.updates, Table(s.events, s.positions);
        var report := s.ReconcileMedia(x, disk, now);
        SoundStartup(x, disk, now, base1, updates1, t1, s.base, s.updates, Table(s.events, s.positions), report, used, dead);
      case _ =>
        ok := DoCrash(s, op, used, dead);
    }
  }

  // One of the operations in which the process dies.
  method DoCrash(s: EventStore, op: Op, ghost used: set<string>, ghost dead: set<string>) returns (ok: bool)
    requires s.Valid() && Sound(s.base, s.updates, used, dead) && Lawful(op, used, dead)
    requires op.CrashAdd? || op.CrashChange? || op.CrashWithdraw? || op.CrashStartup?
    modifies s
    ensures ok && s.Valid() && Sound(s.base, s.updates, UsedAfter(op, used), DeadAfter(op, dead))
    ensures Follows(s.codec, op, old(s.base), old(s.updates), s.base, s.updates)
  {
    hide Sound, Replay, Indexed, Encoded, JsonLike, WithoutLegacy, Kept, AllWithdrawn, Changes, UpdateOf, CutPass, Adds;
    UniqueTable(s.base, s.updates, used, dead);
    ghost var base, updates, es := s.base, s.updates, s.events;
    match op {
      case CrashAdd(e, cut) =>
        ok := Tear(s, base, [e], cut, false);
        SoundTorn(s.codec, base, updates, used, dead, e, cut);
      case CrashChange(id, change, cut) =>
        InTable(s.events, s.positions);
        UpdateOfIndex(es, s.positions, id, change);
        if id in s.positions {
          ghost var events, positions := s.events, s.positions;
          var e := change(s.events[s.positions[id]]);
          ok := Tear(s, updates, [e], cut, true);
          TornAdds(s.codec, base, updates, events, positions, id, e, cut);
          SoundUpdates(base, updates, s.updates, used, dead);
        } else {
          ok := s.ReopenUnchanged();
        }
        SoundWithoutLegacy(base, s.updates, used, dead);
      case CrashWithdraw(disk, merge, cut) =>
        ok := WithdrawThenTear(s, disk, merge, cut);
        SoundUpdates(base, updates, s.updates, used, dead);
        SoundWithoutLegacy(base, s.updates, used, dead);
      case CrashStartup(x, disk, now, point) =>
        ok := s.ReopenUnchanged();
        SoundWithoutLegacy(base, updates, used, dead);
        UniqueTable(s.base, s.updates, used, dead);
        ghost var base1, t := s.base, Table(s.events, s.positions);
        ok := PassThenTear(s, x, disk, now, point);
        SoundCut(s.codec, x, disk, now, point, t, base1, updates, s.base, s.updates, used, dead);
    }
  }

  // A pass cut short leaves everything accounted for.
  lemma SoundCut(c: Codec<Event>, x: Tools, disk: Disk, now: int, point: CrashPoint, t: Table, base0: seq<Event>, updates0: seq<Event>,
                 base: seq<Event>, updates: seq<Event>, used: set<string>, dead: set<string>)
    requires Sound(base0, updates0, used, dead) && CutPass(c, x, disk, now, point, t, base0, updates0, base, updates)
    requires Indexed(t.events, t.positions) && |t.events| == |base0| && forall i | 0 <= i < |base0| :: t.events[i].id == base0[i].id
    ensures Sound(base, updates, used + Recoverable(x, disk), dead)
  {
    hide Legacy, Find, Kept, Gains, Noted, WalkOrder, WithoutLegacy, PassUpdates, Adds;
    var gains := PassGains(x, disk, now, t);
    var kept := gains[..RecordsLeft(c, point, gains)];
    var more := used + Recoverable(x, disk);
    SoundUpdates(base0, updates0, updates, used, dead);
    SoundWider(base0, updates, used, dead, more, dead);
    forall e | e in kept ensures e.id in Recoverable(x, disk) && e.id !in Ids(base0) && !Legacy(e) {
      assert e in gains;
      GainedFrom(x, disk, t.positions.Keys, Noted(x, disk, now, t.events), e);
      NotInTable(base0, t, e.id);
    }
    GainsUnique(x, t.positions.Keys, Noted(x, disk, now, t.events), WalkOrder(disk));
    SoundGained(base0, updates, more, dead, kept);
    SoundWithoutLegacy(base0 + kept, updates, more, dead);
  }

  lemma GainedFrom(x: Tools, disk: Disk, known: set<string>, referenced: set<string>, e: Event)
    requires e in Gains(x, known, referenced, WalkOrder(disk))
    ensures e.id in Recoverable(x, disk) && e.id !in known && !Legacy(e)
  {
    hide Gains;
    var rs := WalkOrder(disk);
    GainsExactly(x, known, referenced, rs, e);
    var k :| 0 <= k < |rs| && Recovers(x, known, referenced, rs, k) && e == RecoveredEvent(x, rs[k]);
    assert rs[k] in disk.recordings;
  }

  lemma {:induction false} GainsUnique(x: Tools, known: set<string>, referenced: set<string>, rs: seq<Recording>)
    ensures Unique(Gains(x, known, referenced, rs))
  {
    hide Able, OwnID, RecoveredEvent;
    if rs != [] {
      GainsUnique(x, known, referenced, rs[..|rs| - 1]);
      assert forall e | e in Gains(x, known, referenced, rs[..|rs| - 1]) :: e.id in Ids(Gains(x, known, referenced, rs[..|rs| - 1]));
    }
  }

  lemma SoundGained(base: seq<Event>, updates: seq<Event>, used: set<string>, dead: set<string>, more: seq<Event>)
    requires Sound(base, updates, used, dead) && Unique(more)
    requires forall e | e in more :: e.id in used && e.id !in Ids(base) && !Legacy(e)
    ensures Sound(base + more, updates, used, dead)
  {
    hide Legacy;
    var all := base + more;
    forall i, j | 0 <= i < j < |all| ensures all[i].id != all[j].id {
      if i < |base| <= j { assert more[j - |base|] in more && base[i] in base; }
    }
  }

  lemma UpdateOfIndex(es: seq<Event>, positions: map<string, nat>, id: string, change: Event -> Event)
    requires Indexed(es, positions)
    ensures id in positions ==> positions[id] < |es| && UpdateOf(es, id, change) == [change(es[positions[id]])]
    ensures id !in positions ==> UpdateOf(es, id, change) == []
  {
  }

  // The new update is about an event of the table.
  lemma UpdateAdds(base: seq<Event>, updates: seq<Event>, after: seq<Event>, es: seq<Event>, positions: map<string, nat>, id: string, found: bool)
    requires Indexed(es, positions) && es == Replay(base, after) && (found ==> id in positions)
    requires after == if found then updates + [es[positions[id]]] else updates
    ensures Adds(base, updates, after)
  {
    hide Replay, Indexed;
    NothingAdded(base, updates);
    InTable(es, positions);
    if found {
      assert base[positions[id]] in base;
      OneAdded(base, updates, es[positions[id]]);
    }
  }

  lemma SoundTorn(c: Codec<Event>, base: seq<Event>, updates: seq<Event>, used: set<string>, dead: set<string>, e: Event, cut: nat)
    requires Sound(base, updates, used, dead) && e.id !in used
    ensures Sound(WithoutLegacy(base + [e][..Kept(c, [e], cut)]), updates, used + {e.id}, if Legacy(e) then dead + {e.id} else dead)
  {
    hide Legacy, WithoutLegacy, Sound;
    var more := if Legacy(e) then dead + {e.id} else dead;
    var kept := [e][..Kept(c, [e], cut)];
    SoundAppend(base, updates, used, dead, e);
    SoundWider(base, updates, used, dead, used + {e.id}, more);
    assert kept == [] || kept == [e];
    assert base + [] == base;
    SoundWithoutLegacy(base + kept, updates, used + {e.id}, more);
  }

  lemma SoundWider(base: seq<Event>, updates: seq<Event>, used: set<string>, dead: set<string>, used': set<string>, dead': set<string>)
    requires Sound(base, updates, used, dead) && used <= used' && dead <= dead'
    ensures Sound(base, updates, used', dead')
  {
  }

  lemma TornAdds(c: Codec<Event>, base: seq<Event>, updates: seq<Event>, es: seq<Event>, positions: map<string, nat>, id: string, e: Event, cut: nat)
    requires Indexed(es, positions) && es == Replay(base, updates) && id in positions && positions[id] < |es| && e.id == es[positions[id]].id
    ensures Adds(base, updates, updates + [e][..Kept(c, [e], cut)])
  {
    hide Replay, Indexed;
    var kept := [e][..Kept(c, [e], cut)];
    assert kept == [] || kept == [e];
    NothingAdded(base, updates);
    assert updates + [] == updates;
    assert base[positions[id]] in base;
    OneAdded(base, updates, e);
  }

  /** Over every lawful run, whatever happens in it: every start succeeds, memory is the base journal with the
      updates replayed, the index is right and identifiers stay unique; and nothing is lost: the records that are
      not legacy stay in their order with new ones behind them, every event appended is there, and no update goes. */
  method Run(s: EventStore, ops: seq<Op>, ghost used: set<string>, ghost dead: set<string>) returns (started: bool)
    requires s.Valid() && Sound(s.base, s.updates, used, dead) && AllLawful(ops, used, dead)
    modifies s
    ensures started && s.Valid() && Unique(s.events)
    ensures s.events == Replay(s.base, s.updates)
    ensures Keeps(old(s.base), old(s.updates), s.base, s.updates) && AllThere(ops, s.base)
    decreases |ops|
  {
    hide AllLawful, Lawful, Sound, Follows, Legacy, WithoutLegacy, Replay, Indexed, Encoded, JsonLike;
    if |ops| == 0 {
      UniqueTable(s.base, s.updates, used, dead);
      return true;
    }
    LawfulNext(ops, used, dead);
    var ok := Do(s, ops[0], used, dead);
    if !ok { return false; }
    ghost var base, updates := s.base, s.updates;
    FollowsKeeps(s.codec, ops[0], old(s.base), old(s.updates), base, updates);
    started := Run(s, ops[1..], UsedAfter(ops[0], used), DeadAfter(ops[0], dead));
    KeepsTogether(ops, old(s.base), old(s.updates), base, updates, s.base, s.updates);
  }

  lemma LawfulNext(ops: seq<Op>, used: set<string>, dead: set<string>)
    requires AllLawful(ops, used, dead) && |ops| > 0
    ensures Lawful(ops[0], used, dead) && AllLawful(ops[1..], UsedAfter(ops[0], used), DeadAfter(ops[0], dead))
  {
  }

  lemma UniqueTable(base: seq<Event>, updates: seq<Event>, used: set<string>, dead: set<string>)
    requires Sound(base, updates, used, dead)
    ensures Unique(Replay(base, updates)) && Unique(base)
  {
    SameIdsUnique(base, Replay(base, updates));
  }

  /** The law about dropped identifiers is needed: a start drops a legacy record and leaves its update; a recording
      whose metadata names the record is recovered; and the next restart would put the old update in its place. */
  method HauntedStartup(s: EventStore, x: Tools, r: Recording, now: int, ghost legacy: Event, ghost update: Event)
    requires s.Valid() && s.base == [legacy] && s.updates == [update]
    requires Legacy(legacy) && Legacy(update) && update.id == legacy.id != ""
    requires !r.isWav && MetadataUsable(r) && r.metadata.value.eventID == legacy.id
    requires r.path != "" && ToolsValid(x)
    modifies s
    ensures !s.Valid() && |s.events| > 0
  {
    hide Legacy, Indexed, Replay, Encoded, JsonLike, StartupPass, ToolsValid, NoneComesBack, Gains, Noted, WalkOrder, StartupLaw;
    var disk := Disk([r], {r.path});
    assert WithoutLegacy([legacy]) == [] by { assert [legacy][..0] == []; }
    var ok := s.ReopenUnchanged();
    InTable(s.events, s.positions);
    assert Unique(s.events) && |s.events| == 0;
    ghost var t0, updates := Table(s.events, s.positions), s.updates;
    var report := s.ReconcileMedia(x, disk, now);
    InTable(s.events, s.positions);
    assert Handled(x, disk, s.events, s.positions, r) by { assert r in disk.recordings; }
    ghost var e := s.base[0];
    assert e in s.base[0..] && Fresh(x, disk.recordings, e, t0.positions);
    assert [update][..0] == [] && Haunted(updates, e);
  }
}
