/** Mapper jobs and the sessions that may report on them (server/internal/app/mapper.go).  Every method holds
    the lock for its whole change of state, so an interleaving is a sequence of operations.  Times are
    numbers; whether jobs could be written to disk is an input. */
module MapperSessions {
  import opened GoText
  import opened Wrappers

  datatype State = Idle | Running | Stopping | Failed

  datatype Progress = Progress(
    running: bool, mode: string, currentIndex: int, totalTargets: int, currentBatch: int, totalBatches: int,
    monitoredChannels: int, currentFrequencyHz: real, currentFrequencies: seq<real>, currentLabel: string,
    checksCompleted: int, passesCompleted: int,
    startedAt: Option<int>, stoppedAt: Option<int>, passStartedAt: Option<int>, estimatedPassEndAt: Option<int>,
    targetStartedAt: Option<int>, targetEndsAt: Option<int>, phaseEndsAt: Option<int>,
    lastCheckAt: Option<int>, lastActivityAt: Option<int>, tuning: int)

  // config stands for the settings that do not matter here besides the mode.
  datatype Job = Job(name: string, mode: string, config: int, state: State, lastError: string, progress: Progress, updatedAt: int)

  const NO_PROGRESS := Progress(false, "", 0, 0, 0, 0, 0, 0.0, [], "", 0, 0, None, None, None, None, None, None, None, None, None, 0)

  // The zero value Go reads for a job that is not in the map.
  const NO_JOB := Job("", "", 0, Idle, "", NO_PROGRESS, 0)

  datatype Manager = Manager(sessionID: nat, jobs: map<string, Job>, sessions: map<string, nat>)

  function Session(m: Manager, id: string): nat { if id in m.sessions then m.sessions[id] else 0 }

  function JobOf(jobs: map<string, Job>, id: string): Job { if id in jobs then jobs[id] else NO_JOB }

  // ---- the operations ----

  datatype Report =
    | Phase(mode: string, endsAt: Option<int>)
    | Tuned(tuning: int)
    | Batch(index: int, total: int, target: int, targets: int, frequencies: seq<real>, labelText: string, listenFor: int, now: int)
    | Pass
    | End(now: int)

  datatype Operation =
    | Save(id: string, job: Job, written: bool, now: int)
    | Delete(id: string, written: bool)
    | SetError(id: string, message: string, now: int)
    | MarkStopping(id: string)
    | Observe(id: string, active: bool, now: int)
    | BeginJob(id: string, targets: int, batches: int, now: int)
    | BeginSurvey                                      // BeginSession, which draws from the same counter
    | Scoped(id: string, session: nat, report: Report) // the operations that carry a session

  // Duration division truncates toward zero.
  function Quotient(a: int, b: int): (q: int)
    requires b > 0
    ensures a >= 0 ==> q >= 0 && 0 <= a - q * b < b
    ensures a <= 0 ==> q <= 0 && -b < a - q * b <= 0
  {
    if a < 0 then -(-a / b) else a / b
  }

  function Batched(p: Progress, b: Report): Progress
    requires b.Batch?
  {
    var started := if b.index == 0 || p.passStartedAt.None? then Some(b.now) else p.passStartedAt;
    var estimated := if b.index == 0 || p.passStartedAt.None? then None else p.estimatedPassEndAt;
    p.(running := true, currentIndex := b.target, totalTargets := b.targets, currentBatch := b.index, totalBatches := b.total,
       monitoredChannels := |b.frequencies|, currentFrequencies := b.frequencies,
       currentFrequencyHz := if |b.frequencies| > 0 then b.frequencies[0] else p.currentFrequencyHz,
       currentLabel := b.labelText, targetStartedAt := Some(b.now), passStartedAt := started,
       targetEndsAt := if b.listenFor > 0 then Some(b.now + b.listenFor) else None,
       estimatedPassEndAt :=
         if b.listenFor > 0 then Some(b.now + (b.total - b.index) * b.listenFor)
         else if b.index > 0 then Some(b.now + Quotient(b.now - started.value, b.index) * (b.total - b.index))
         else estimated)
  }

  function Reported(j: Job, r: Report): Job {
    match r
    case Phase(mode, endsAt) => j.(progress := j.progress.(mode := mode, phaseEndsAt := endsAt))
    case Tuned(tuning) => j.(progress := j.progress.(tuning := tuning))
    case Batch(_, _, _, _, _, _, _, _) => j.(progress := Batched(j.progress, r))
    case Pass => j.(progress := j.progress.(passesCompleted := j.progress.passesCompleted + 1))
    case End(now) =>
      j.(state := Idle, updatedAt := now, progress := j.progress.(running := false, stoppedAt := Some(now), targetEndsAt := None))
  }

  function Begun(j: Job, targets: int, batches: int, now: int): Job {
    j.(state := Running, lastError := "", updatedAt := now,
       progress := NO_PROGRESS.(running := true, mode := j.mode, currentIndex := -1, currentBatch := -1, totalTargets := targets,
                                totalBatches := batches, startedAt := Some(now), passStartedAt := Some(now)))
  }

  function Checked(j: Job, active: bool, now: int): Job {
    j.(progress := j.progress.(checksCompleted := j.progress.checksCompleted + 1, lastCheckAt := Some(now),
                               lastActivityAt := if active then Some(now) else j.progress.lastActivityAt))
  }

  function Saved(j: Job, now: int): Job {
    j.(state := Idle, lastError := "", updatedAt := now, progress := NO_PROGRESS.(mode := j.mode, currentIndex := -1))
  }

  /** The state after an operation. */
  function After(m: Manager, op: Operation): Manager {
    match op
    case Save(id, job, written, now) =>
      if (id in m.jobs && m.jobs[id].state == Running) || !written then m
      else m.(jobs := m.jobs[id := Saved(job, now)])
    case Delete(id, written) =>
      if id !in m.jobs || m.jobs[id].state == Running || m.jobs[id].state == Stopping || !written then m
      else m.(jobs := m.jobs - {id}, sessions := m.sessions - {id})
    case SetError(id, message, now) =>
      if id !in m.jobs then m
      else
        var j := m.jobs[id];
        m.(jobs := m.jobs[id := j.(state := Failed, lastError := TrimSpace(message), progress := j.progress.(running := false), updatedAt := now)])
    case MarkStopping(id) =>
      if id in m.jobs && m.jobs[id].state == Running then m.(jobs := m.jobs[id := m.jobs[id].(state := Stopping)]) else m
    case Observe(id, active, now) =>
      if id != "" && id in m.jobs then m.(jobs := m.jobs[id := Checked(m.jobs[id], active, now)]) else m
    case BeginJob(id, targets, batches, now) =>
      Manager(m.sessionID + 1, if id in m.jobs then m.jobs[id := Begun(m.jobs[id], targets, batches, now)] else m.jobs,
              m.sessions[id := m.sessionID + 1])
    case BeginSurvey => m.(sessionID := m.sessionID + 1)
    case Scoped(id, session, r) =>
      if Session(m, id) != session || (r.Batch? && id !in m.jobs) then m
      else Manager(m.sessionID, m.jobs[id := Reported(JobOf(m.jobs, id), r)], if r.End? then m.sessions - {id} else m.sessions)
  }

  function AfterAll(m: Manager, ops: seq<Operation>): Manager {
    if |ops| == 0 then m else After(AfterAll(m, ops[..|ops| - 1]), ops[|ops| - 1])
  }

  // ---- session numbers ----

  // A session is live, or it has been issued and is over.
  predicate Dead(m: Manager, id: string, session: nat) { 1 <= session <= m.sessionID && Session(m, id) != session }

  // A job that runs or is being stopped has a session; sessions were issued.
  ghost predicate Inv(m: Manager) {
    && (forall id | id in m.sessions :: 1 <= m.sessions[id] <= m.sessionID)
    && (forall id | id in m.jobs && (m.jobs[id].state == Running || m.jobs[id].state == Stopping) :: id in m.sessions)
  }

  lemma AfterKeeps(m: Manager, op: Operation)
    requires Inv(m)
    ensures Inv(After(m, op)) && m.sessionID <= After(m, op).sessionID
  {
  }

  lemma {:induction false} AfterAllKeeps(m: Manager, ops: seq<Operation>)
    requires Inv(m)
    ensures Inv(AfterAll(m, ops)) && m.sessionID <= AfterAll(m, ops).sessionID
  {
    hide After;
    if |ops| > 0 {
      AfterAllKeeps(m, ops[..|ops| - 1]);
      AfterKeeps(AfterAll(m, ops[..|ops| - 1]), ops[|ops| - 1]);
    }
  }

  // The session numbers a run hands out.
  function Issued(m: Manager, ops: seq<Operation>): seq<nat> {
    if |ops| == 0 then []
    else
      var before := AfterAll(m, ops[..|ops| - 1]);
      Issued(m, ops[..|ops| - 1]) + (if ops[|ops| - 1].BeginJob? || ops[|ops| - 1].BeginSurvey? then [before.sessionID + 1] else [])
  }

  /** From a fresh manager the sessions are numbered 1, 2, 3, ... */
  lemma {:induction false} IssuedInOrder(m: Manager, ops: seq<Operation>)
    requires m.sessionID == 0
    ensures Issued(m, ops) == seq(AfterAll(m, ops).sessionID, i => i + 1)
  {
    if |ops| > 0 {
      IssuedInOrder(m, ops[..|ops| - 1]);
    }
  }

  // ---- fencing ----

  lemma DeadStaysDead(m: Manager, op: Operation, id: string, session: nat)
    requires Dead(m, id, session)
    ensures Dead(After(m, op), id, session)
  {
  }

  lemma DeadIsFenced(m: Manager, id: string, session: nat, r: Report)
    requires Dead(m, id, session)
    ensures After(m, Scoped(id, session, r)) == m
  {
  }

  /** A session that has been ended or superseded, or whose job has been deleted, is dead. */
  lemma WhatKills(m: Manager, id: string, now: int, targets: int, batches: int)
    requires Inv(m) && id in m.sessions
    ensures Dead(After(m, Scoped(id, m.sessions[id], End(now))), id, m.sessions[id])
    ensures Dead(After(m, BeginJob(id, targets, batches, now)), id, m.sessions[id])
    ensures id !in After(m, Delete(id, true)).jobs && id in m.jobs ==> Dead(After(m, Delete(id, true)), id, m.sessions[id])
  {
  }

  // A run of which every operation that carries the session has no effect.
  ghost predicate Silent(m: Manager, ops: seq<Operation>, id: string, session: nat) {
    forall k | 0 <= k < |ops| && ops[k].Scoped? && ops[k].id == id && ops[k].session == session ::
      AfterAll(m, ops[..k + 1]) == AfterAll(m, ops[..k])
  }

  /** Whatever happens after a session is dead, in any order and to whatever jobs, it stays dead, and nothing
      reported under its number changes anything. */
  lemma {:induction false} Fenced(m: Manager, ops: seq<Operation>, id: string, session: nat)
    requires Dead(m, id, session)
    ensures Dead(AfterAll(m, ops), id, session) && Silent(m, ops, id, session)
  {
    hide After, Dead;
    if |ops| > 0 {
      var init, last := ops[..|ops| - 1], ops[|ops| - 1];
      Fenced(m, init, id, session);
      DeadStaysDead(AfterAll(m, init), last, id, session);
      if last.Scoped? && last.id == id && last.session == session { DeadIsFenced(AfterAll(m, init), id, session, last.report); }
      forall k | 0 <= k < |ops| && ops[k].Scoped? && ops[k].id == id && ops[k].session == session
        ensures AfterAll(m, ops[..k + 1]) == AfterAll(m, ops[..k])
      {
        if k < |init| {
          assert ops[..k + 1] == init[..k + 1] && ops[..k] == init[..k];
        } else {
          assert ops[..k + 1] == ops && ops[..k + 1][..k] == ops[..k] == init;
        }
      }
    }
  }

  /** Exactly which reports take effect: those whose number is the one on record, where no record reads as
      zero, and a batch only for a job that exists.  The others leave everything as it is. */
  lemma TakesEffectExactly(m: Manager, id: string, session: nat, r: Report)
    ensures var n := After(m, Scoped(id, session, r));
            if Session(m, id) == session && (r.Batch? ==> id in m.jobs) then
              && n.jobs.Keys == m.jobs.Keys + {id} && n.jobs[id] == Reported(JobOf(m.jobs, id), r)
              && (forall other | other in m.jobs && other != id :: n.jobs[other] == m.jobs[other])
              && (r.End? ==> Session(n, id) == 0) && (!r.End? ==> n.sessions == m.sessions)
            else n == m
  {
  }

  // ---- what the progress of a job says ----

  /** A job whose session begins runs, has no error, and has done nothing yet. */
  ghost predicate Fresh(before: Job, targets: int, batches: int, now: int, after: Job) {
    var p := after.progress;
    && after.state == Running && after.lastError == "" && after.updatedAt == now
    && (after.name, after.mode, after.config) == (before.name, before.mode, before.config)
    && p.running && p.mode == before.mode && p.totalTargets == targets && p.totalBatches == batches
    && p.currentIndex == p.currentBatch == -1 && p.monitoredChannels == p.checksCompleted == p.passesCompleted == p.tuning == 0
    && p.currentFrequencyHz == 0.0 && p.currentFrequencies == [] && p.currentLabel == ""
    && p.startedAt == p.passStartedAt == Some(now)
    && p.stoppedAt == p.estimatedPassEndAt == p.targetStartedAt == p.targetEndsAt == p.phaseEndsAt == p.lastCheckAt == p.lastActivityAt == None
  }

  /** A batch is on the display as it was told; a pass starts with its first batch; the pass is to end when the batches
      left have each taken the time to listen for or, where none is given, the mean time of those done, in whole
      units; and nothing else changes. */
  ghost predicate Shown(before: Progress, b: Report, after: Progress)
    requires b.Batch?
  {
    && after.running && after.currentIndex == b.target && after.totalTargets == b.targets
    && after.currentBatch == b.index && after.totalBatches == b.total
    && after.monitoredChannels == |b.frequencies| && after.currentFrequencies == b.frequencies
    && (|b.frequencies| > 0 ==> after.currentFrequencyHz == b.frequencies[0])
    && (|b.frequencies| == 0 ==> after.currentFrequencyHz == before.currentFrequencyHz)
    && after.currentLabel == b.labelText && after.targetStartedAt == Some(b.now)
    && (after.mode, after.checksCompleted, after.passesCompleted, after.tuning)
         == (before.mode, before.checksCompleted, before.passesCompleted, before.tuning)
    && (after.startedAt, after.stoppedAt, after.phaseEndsAt, after.lastCheckAt, after.lastActivityAt)
         == (before.startedAt, before.stoppedAt, before.phaseEndsAt, before.lastCheckAt, before.lastActivityAt)
    && after.passStartedAt == (if b.index != 0 && before.passStartedAt.Some? then before.passStartedAt else Some(b.now))
    && (b.listenFor > 0 ==> after.targetEndsAt == Some(b.now + b.listenFor))
    && (b.listenFor > 0 ==> after.estimatedPassEndAt == Some(b.now + b.listenFor * (b.total - b.index)))
    && (b.listenFor <= 0 ==> after.targetEndsAt == None)
    && (b.listenFor <= 0 && b.index > 0 ==>
                exists mean: int {:trigger mean * (b.total - b.index)} ::
                  && Mean(b.now - after.passStartedAt.value, b.index, mean)
                  && after.estimatedPassEndAt == Some(b.now + mean * (b.total - b.index)))
    && (b.listenFor <= 0 && b.index <= 0 ==>
                after.estimatedPassEndAt == if b.index == 0 || before.passStartedAt.None? then None else before.estimatedPassEndAt)
  }

  lemma BatchedIsShown(p: Progress, b: Report)
    requires b.Batch?
    ensures Shown(p, b, Batched(p, b))
  {
    if b.listenFor <= 0 && b.index > 0 {
      var started := Batched(p, b).passStartedAt.value;
      var mean := Quotient(b.now - started, b.index);
      assert Mean(b.now - started, b.index, mean);
      assert Batched(p, b).estimatedPassEndAt == Some(b.now + mean * (b.total - b.index));
    }
  }

  lemma AfterBatch(m: Manager, id: string, session: nat, b: Report)
    requires b.Batch?
    ensures After(m, Scoped(id, session, b))
         == if Session(m, id) != session || id !in m.jobs then m
            else m.(jobs := m.jobs[id := m.jobs[id].(progress := Batched(m.jobs[id].progress, b))])
  {
    hide Batched;
  }

  // mean is elapsed / batches, cut off toward zero.
  predicate Mean(elapsed: int, batches: int, mean: int) {
    if elapsed >= 0 then mean * batches <= elapsed < mean * batches + batches && mean >= 0
    else mean * batches - batches < elapsed <= mean * batches && mean <= 0
  }

  // The parts of a run that count for a job: its checks, and the passes reported under a session.
  function Checks(ops: seq<Operation>, id: string): nat {
    if |ops| == 0 then 0
    else Checks(ops[..|ops| - 1], id) + (if ops[|ops| - 1].Observe? && ops[|ops| - 1].id == id then 1 else 0)
  }

  function Passes(ops: seq<Operation>, id: string, session: nat): nat {
    if |ops| == 0 then 0
    else Passes(ops[..|ops| - 1], id, session) + (if ops[|ops| - 1] == Scoped(id, session, Pass) then 1 else 0)
  }

  // The session goes on: nobody saves, deletes or begins the job anew, or ends the session.
  predicate GoesOn(op: Operation, id: string, session: nat) {
    match op
    case Save(other, _, _, _) => other != id
    case Delete(other, _) => other != id
    case BeginJob(other, _, _, _) => other != id
    case Scoped(other, number, report) => other == id && number == session ==> !report.End?
    case _ => true
  }

  /** While a session goes on, whatever happens to other jobs and whatever old sessions report, its job counts
      exactly the checks of the job and the passes reported under the session, from nothing at its begin. */
  lemma {:induction false} SessionCounts(m: Manager, ops: seq<Operation>, id: string, targets: int, batches: int, now: int)
    requires id != "" && id in m.jobs
    requires forall k | 0 <= k < |ops| :: GoesOn(ops[k], id, m.sessionID + 1)
    ensures var begun := After(m, BeginJob(id, targets, batches, now));
            var end := AfterAll(begun, ops);
            && Session(end, id) == begun.sessionID == m.sessionID + 1 && id in end.jobs
            && end.jobs[id].progress.checksCompleted == Checks(ops, id)
            && end.jobs[id].progress.passesCompleted == Passes(ops, id, begun.sessionID)
            && end.jobs[id].progress.startedAt == Some(now)
  {
    if |ops| > 0 {
      SessionCounts(m, ops[..|ops| - 1], id, targets, batches, now);
      var before := AfterAll(After(m, BeginJob(id, targets, batches, now)), ops[..|ops| - 1]);
      CountsOne(before, ops[|ops| - 1], id, m.sessionID + 1);
    }
  }

  lemma CountsOne(m: Manager, op: Operation, id: string, session: nat)
    requires id != "" && id in m.jobs && Session(m, id) == session && session > 0 && GoesOn(op, id, session)
    ensures var n := After(m, op);
            && Session(n, id) == session && id in n.jobs
            && n.jobs[id].progress.startedAt == m.jobs[id].progress.startedAt
            && n.jobs[id].progress.checksCompleted
                 == m.jobs[id].progress.checksCompleted + (if op.Observe? && op.id == id then 1 else 0)
            && n.jobs[id].progress.passesCompleted
                 == m.jobs[id].progress.passesCompleted + (if op == Scoped(id, session, Pass) then 1 else 0)
  {
  }

  /** Number zero is not fenced by the methods: without a session on record it passes, and creates a job that was
      not there.  Callers must not report under it, and finishMapperJob makes sure it does not. */
  lemma ZeroIsNotFenced(m: Manager, id: string, mode: string)
    requires id !in m.sessions && id !in m.jobs
    ensures id in After(m, Scoped(id, 0, Phase(mode, None))).jobs
  {
  }

  /** A job deleted between its start and its first session comes back, nameless, with the first report. */
  lemma DeletedJobReturns(m: Manager, id: string, mode: string, now: int)
    requires Inv(m) && id in m.jobs && m.jobs[id].state == Idle
    ensures var ops := [Delete(id, true), BeginJob(id, 0, 0, now), Scoped(id, m.sessionID + 1, Phase(mode, None))];
            && id !in AfterAll(m, ops[..1]).jobs
            && id in AfterAll(m, ops).jobs && AfterAll(m, ops).jobs[id].name == ""
  {
    var ops := [Delete(id, true), BeginJob(id, 0, 0, now), Scoped(id, m.sessionID + 1, Phase(mode, None))];
    assert ops[..1] == [Delete(id, true)] && [Delete(id, true)][..0] == [];
    assert ops[..2][..1] == ops[..1] && ops[..3] == ops;
    assert AfterAll(m, ops[..1]) == After(m, Delete(id, true));
    assert AfterAll(m, ops[..2]) == After(AfterAll(m, ops[..1]), BeginJob(id, 0, 0, now));
    assert AfterAll(m, ops) == After(AfterAll(m, ops[..2]), ops[2]);
  }

  // ---- jobs that come back ----

  // A report that takes effect for a job whether or not it exists.
  predicate Creates(m: Manager, op: Operation, id: string) {
    op.Scoped? && op.id == id && !op.report.Batch? && Session(m, id) == op.session
  }

  predicate SavesNot(op: Operation, id: string) { !(op.Save? && op.id == id) }

  lemma CreatesExactly(m: Manager, op: Operation, id: string)
    requires id !in m.jobs && SavesNot(op, id)
    ensures id in After(m, op).jobs <==> Creates(m, op, id)
  {
  }

  // The job has been there at some point of the run.
  ghost predicate Seen(m: Manager, ops: seq<Operation>, id: string) {
    exists k | 0 <= k <= |ops| :: id in AfterAll(m, ops[..k]).jobs
  }

  ghost predicate SomeCreates(m: Manager, ops: seq<Operation>, id: string) {
    exists k | 0 <= k < |ops| :: Creates(AfterAll(m, ops[..k]), ops[k], id)
  }

  /** A job that is not there, and is not saved, comes back during a run exactly when some report other than a
      batch carries the number that is then on record for it (zero where there is none). */
  lemma {:induction false} ComesBackExactly(m: Manager, ops: seq<Operation>, id: string)
    requires id !in m.jobs && forall op | op in ops :: SavesNot(op, id)
    ensures Seen(m, ops, id) <==> SomeCreates(m, ops, id)
  {
    hide After, Creates, SavesNot;
    if |ops| == 0 {
      assert ops[..0] == ops;
    } else {
      var init, last := ops[..|ops| - 1], ops[|ops| - 1];
      ComesBackExactly(m, init, id);
      PrefixesOf(ops);
      if id !in AfterAll(m, init).jobs { CreatesExactly(AfterAll(m, init), last, id); }
      SeenNext(m, ops, id);
      SomeCreatesNext(m, ops, id);
      assert id in AfterAll(m, init).jobs ==> Seen(m, init, id) by { assert init[..|init|] == init; }
    }
  }

  lemma PrefixesOf(ops: seq<Operation>)
    requires |ops| > 0
    ensures forall k | 0 <= k < |ops| :: ops[..|ops| - 1][..k] == ops[..k]
    ensures ops[..|ops|] == ops
  {
  }

  lemma SeenNext(m: Manager, ops: seq<Operation>, id: string)
    requires |ops| > 0
    ensures Seen(m, ops, id) <==> Seen(m, ops[..|ops| - 1], id) || id in AfterAll(m, ops).jobs
  {
    hide AfterAll;
    var init := ops[..|ops| - 1];
    PrefixesOf(ops);
    if Seen(m, ops, id) {
      var k :| 0 <= k <= |ops| && id in AfterAll(m, ops[..k]).jobs;
      assert k < |ops| ==> ops[..k] == init[..k];
      assert k == |ops| ==> ops[..k] == ops;
    }
    if Seen(m, init, id) {
      var k :| 0 <= k <= |init| && id in AfterAll(m, init[..k]).jobs;
      assert ops[..k] == init[..k];
    }
    assert id in AfterAll(m, ops[..|ops|]).jobs ==> Seen(m, ops, id);
  }

  lemma SomeCreatesNext(m: Manager, ops: seq<Operation>, id: string)
    requires |ops| > 0
    ensures SomeCreates(m, ops, id)
       <==> SomeCreates(m, ops[..|ops| - 1], id) || Creates(AfterAll(m, ops[..|ops| - 1]), ops[|ops| - 1], id)
  {
    hide AfterAll, Creates;
    var init, last := ops[..|ops| - 1], |ops| - 1;
    PrefixesOf(ops);
    if SomeCreates(m, ops, id) {
      var k :| 0 <= k < |ops| && Creates(AfterAll(m, ops[..k]), ops[k], id);
      assert k < last ==> init[..k] == ops[..k] && init[k] == ops[k];
    }
    if SomeCreates(m, init, id) {
      var k :| 0 <= k < |init| && Creates(AfterAll(m, init[..k]), init[k], id);
      assert init[..k] == ops[..k] && init[k] == ops[k];
    }
    assert Creates(AfterAll(m, ops[..last]), ops[last], id) ==> SomeCreates(m, ops, id);
  }

  /** What a caller can check: sessions are begun for jobs that exist, and reports carry a number. */
  predicate Careful(m: Manager, op: Operation) {
    (op.BeginJob? ==> op.id in m.jobs) && (op.Scoped? ==> op.session != 0)
  }

  ghost predicate AllCareful(m: Manager, ops: seq<Operation>) {
    forall k | 0 <= k < |ops| :: Careful(AfterAll(m, ops[..k]), ops[k])
  }

  // Every session on record is that of a job.
  ghost predicate SessionsHaveJobs(m: Manager) { m.sessions.Keys <= m.jobs.Keys }

  lemma CarefulStep(m: Manager, op: Operation, id: string)
    requires SessionsHaveJobs(m) && Careful(m, op)
    ensures SessionsHaveJobs(After(m, op))
    ensures op.Scoped? ==> After(m, op).jobs.Keys == m.jobs.Keys
    ensures id !in m.jobs && SavesNot(op, id) ==> id !in After(m, op).jobs
  {
  }

  /** With careful callers no report ever creates a job: a deleted job stays deleted until it is saved again. */
  lemma {:induction false} DeletedStaysDeleted(m: Manager, ops: seq<Operation>, id: string)
    requires SessionsHaveJobs(m) && AllCareful(m, ops)
    requires id !in m.jobs && forall op | op in ops :: SavesNot(op, id)
    ensures SessionsHaveJobs(AfterAll(m, ops)) && id !in AfterAll(m, ops).jobs
    ensures forall k | 0 <= k < |ops| && ops[k].Scoped? :: AfterAll(m, ops[..k + 1]).jobs.Keys == AfterAll(m, ops[..k]).jobs.Keys
  {
    hide After, Careful, SavesNot, SessionsHaveJobs;
    if |ops| > 0 {
      var init, last := ops[..|ops| - 1], |ops| - 1;
      PrefixesOf(ops);
      assert forall k | 0 <= k < last :: init[k] == ops[k] && init[..k] == ops[..k];
      DeletedStaysDeleted(m, init, id);
      CarefulStep(AfterAll(m, init), ops[last], id);
      forall k | 0 <= k < |ops| && ops[k].Scoped? ensures AfterAll(m, ops[..k + 1]).jobs.Keys == AfterAll(m, ops[..k]).jobs.Keys {
        assert k < last ==> init[..k + 1] == ops[..k + 1] && init[..k] == ops[..k] && init[k] == ops[k];
        assert k == last ==> ops[..k + 1] == ops && ops[..k] == init;
      }
    }
  }

  // ---- the manager ----

  class MapperManager {
    var sessionID: nat
    var jobs: map<string, Job>
    var jobSessions: map<string, nat>

    function Value(): Manager
      reads this
    {
      Manager(sessionID, jobs, jobSessions)
    }

    // NewMapperManager: stored jobs come back idle.
    constructor (stored: map<string, Job>)
      ensures sessionID == 0 && jobSessions == map[] && jobs.Keys == stored.Keys && Inv(Value())
      ensures forall id | id in stored :: jobs[id] == stored[id].(state := Idle, progress := stored[id].progress.(running := false))
    {
      sessionID, jobSessions := 0, map[];
      jobs := map id | id in stored :: stored[id].(state := Idle, progress := stored[id].progress.(running := false));
    }

    method SaveJob(id: string, job: Job, written: bool, now: int) returns (ok: bool)
      modifies this
      ensures Value() == After(old(Value()), Save(id, job, written, now))
      ensures ok <==> written && (id in old(jobs) ==> old(jobs)[id].state != Running)
      ensures if ok then id in jobs && jobs[id] == Saved(job, now) else Value() == old(Value())
    {
      if id in jobs && jobs[id].state == Running { return false; }
      if !written { return false; }
      var saved := job.(state := Idle, lastError := "", updatedAt := now);
      saved := saved.(progress := NO_PROGRESS.(mode := job.mode, currentIndex := -1));
      jobs := jobs[id := saved];
      ok := true;
    }

    method DeleteJob(id: string, written: bool) returns (ok: bool)
      modifies this
      ensures Value() == After(old(Value()), Delete(id, written))
      ensures ok <==> written && id in old(jobs) && old(jobs)[id].state != Running && old(jobs)[id].state != Stopping
      ensures if ok then id !in jobs && id !in jobSessions else Value() == old(Value())
    {
      if id !in jobs { return false; }
      if jobs[id].state == Running || jobs[id].state == Stopping { return false; }
      if !written { return false; }
      jobs, jobSessions := jobs - {id}, jobSessions - {id};
      ok := true;
    }

    method SetJobError(id: string, message: string, now: int)
      modifies this
      ensures Value() == After(old(Value()), SetError(id, message, now))
    {
      if id in jobs {
        var job := jobs[id];
        job := job.(state := Failed, lastError := TrimSpace(message), progress := job.progress.(running := false), updatedAt := now);
        jobs := jobs[id := job];
      }
    }

    method MarkJobStopping(id: string)
      modifies this
      ensures Value() == After(old(Value()), MarkStopping(id))
    {
      if id in jobs && jobs[id].state == Running { jobs := jobs[id := jobs[id].(state := Stopping)]; }
    }

    /** A session number no operation carried before. */
    method BeginJobSession(id: string, targets: int, batches: int, now: int) returns (session: nat)
      requires Inv(Value())
      modifies this
      ensures Value() == After(old(Value()), BeginJob(id, targets, batches, now))
      ensures session == sessionID == old(sessionID) + 1 && Session(Value(), id) == session
      ensures Inv(Value()) && forall other | other in old(jobSessions) :: old(jobSessions)[other] < session
      ensures id in old(jobs) ==> id in jobs && Fresh(old(jobs)[id], targets, batches, now, jobs[id])
    {
      AfterKeeps(Value(), BeginJob(id, targets, batches, now));
      sessionID := sessionID + 1;
      session := sessionID;
      jobSessions := jobSessions[id := session];
      if id in jobs { jobs := jobs[id := Begun(jobs[id], targets, batches, now)]; }
    }

    method SetJobPhase(id: string, session: nat, mode: string, endsAt: Option<int>)
      modifies this
      ensures Value() == After(old(Value()), Scoped(id, session, Phase(mode, endsAt)))
    {
      if Session(Value(), id) == session {
        var job := JobOf(jobs, id);
        job := job.(progress := job.progress.(mode := mode, phaseEndsAt := endsAt));
        jobs := jobs[id := job];
      }
    }

    method UpdateJobTuning(id: string, session: nat, tuning: int)
      modifies this
      ensures Value() == After(old(Value()), Scoped(id, session, Tuned(tuning)))
    {
      if Session(Value(), id) == session {
        var job := JobOf(jobs, id);
        job := job.(progress := job.progress.(tuning := tuning));
        jobs := jobs[id := job];
      }
    }

    method BeginJobBatch(id: string, session: nat, batch: Report)
      requires batch.Batch?
      modifies this
      ensures Value() == After(old(Value()), Scoped(id, session, batch))
      ensures old(Session(Value(), id)) == session && id in old(jobs) ==>
                id in jobs && jobs[id] == old(jobs)[id].(progress := jobs[id].progress) && Shown(old(jobs)[id].progress, batch, jobs[id].progress)
    {
      AfterBatch(Value(), id, session, batch);
      hide Shown, Quotient, After;
      if Session(Value(), id) != session { return; }
      if id !in jobs { return; }
      BatchedIsShown(jobs[id].progress, batch);
      var progress := jobs[id].progress;
      progress := progress.(running := true, currentIndex := batch.target, totalTargets := batch.targets, currentBatch := batch.index,
                            totalBatches := batch.total, monitoredChannels := |batch.frequencies|, currentFrequencies := batch.frequencies);
      if |batch.frequencies| > 0 { progress := progress.(currentFrequencyHz := batch.frequencies[0]); }
      progress := progress.(currentLabel := batch.labelText, targetStartedAt := Some(batch.now));
      if batch.index == 0 || progress.passStartedAt.None? {
        progress := progress.(passStartedAt := Some(batch.now), estimatedPassEndAt := None);
      }
      if batch.listenFor > 0 {
        progress := progress.(targetEndsAt := Some(batch.now + batch.listenFor),
                              estimatedPassEndAt := Some(batch.now + (batch.total - batch.index) * batch.listenFor));
      } else {
        progress := progress.(targetEndsAt := None);
        if batch.index > 0 && progress.passStartedAt.Some? {
          var average := Quotient(batch.now - progress.passStartedAt.value, batch.index);
          progress := progress.(estimatedPassEndAt := Some(batch.now + average * (batch.total - batch.index)));
        }
      }
      assert progress == Batched(jobs[id].progress, batch);
      hide Batched;
      jobs := jobs[id := jobs[id].(progress := progress)];
    }

    method CompleteJobPass(id: string, session: nat)
      modifies this
      ensures Value() == After(old(Value()), Scoped(id, session, Pass))
    {
      if Session(Value(), id) == session {
        var job := JobOf(jobs, id);
        job := job.(progress := job.progress.(passesCompleted := job.progress.passesCompleted + 1));
        jobs := jobs[id := job];
      }
    }

    method EndJobSession(id: string, session: nat, now: int)
      modifies this
      ensures Value() == After(old(Value()), Scoped(id, session, End(now)))
    {
      if Session(Value(), id) == session {
        var job := JobOf(jobs, id);
        job := job.(state := Idle, progress := job.progress.(running := false, stoppedAt := Some(now), targetEndsAt := None));
        job := job.(updatedAt := now);
        jobs := jobs[id := job];
        jobSessions := jobSessions - {id};
      }
    }

    method BeginSession() returns (session: nat)
      modifies this
      ensures Value() == After(old(Value()), BeginSurvey) && session == sessionID
    {
      sessionID := sessionID + 1;
      session := sessionID;
    }

    method ObserveJob(id: string, active: bool, now: int)
      modifies this
      ensures Value() == After(old(Value()), Observe(id, active, now))
    {
      if id != "" && id in jobs {
        var job := jobs[id];
        job := job.(progress := job.progress.(checksCompleted := job.progress.checksCompleted + 1, lastCheckAt := Some(now)));
        if active { job := job.(progress := job.progress.(lastActivityAt := Some(now))); }
        jobs := jobs[id := job];
      }
    }
  }
}
