/** What becomes of each event of a deferred-analysis run (server/internal/app/deferred_analysis.go), said in terms of
    what its analysis, the combining of its group and its finalizing reported in the steps of the run. */
module DeferredVerdict {
  import opened Wrappers
  import opened Deferred

  /** What was reported about one event: by its analysis, by the combining of its group, whether the run was not
      stopped yet when the group went on from there, and by its finalizing. */
  datatype Said = Said(analysis: Option<Outcome>, combining: Option<Outcome>, wentOn: Option<bool>, finalizing: Option<Outcome>)

  const NOTHING := Said(None, None, None, None)

  // What a step adds: the outcome it reports, about the event or the group its worker stands at.
  ghost function Hear(r: Run, step: Step, id: nat, s: Said): Said {
    if !(step.Turn? && step.w < |r.workers| && r.workers[step.w].Busy?) then s
    else
      var b := r.workers[step.w];
      if b.at == Analyzing(id) then s.(analysis := Some(step.outcome))
      else if b.at == Combining && id in b.held then s.(combining := Some(step.outcome))
      else if b.at.Combined? && id in b.held then s.(wentOn := Some(!r.stopped))
      else if b.at == Finalizing(false) && |b.held| > 0 && b.held[0] == id then s.(finalizing := Some(step.outcome))
      else s
  }

  // What a run reports about an event, after what was said before it.
  ghost function Told(r: Run, steps: seq<Step>, id: nat, s: Said): Said
    decreases |steps|
  {
    if |steps| == 0 || Next(r, steps[0]).None? then s
    else Told(Next(r, steps[0]).value, steps[1..], id, Hear(r, steps[0], id, s))
  }

  // ---- the law ----

  /** In error: the analysis failed, or the group went on and its combining failed, or the finalizing did. */
  predicate SaidError(s: Said) {
    s.analysis == Some(Fail)
    || (s.wentOn == Some(true) && s.combining == Some(Fail)) || s.finalizing == Some(Fail) || s.finalizing == Some(Canceled)
  }

  /** Complete: everything succeeded. */
  predicate SaidComplete(s: Said) {
    s.analysis == Some(Ok) && s.combining == Some(Ok) && s.wentOn == Some(true) && s.finalizing == Some(Ok)
  }

  predicate Verdict(status: Status, s: Said) {
    (status == Error <==> SaidError(s)) && (status == Complete <==> SaidComplete(s)) && status != Running
  }

  // ---- what has been said about an event in hand ----

  predicate SaidOf(at: Point, s: Said) {
    match at
    case Marking(_) => s == NOTHING
    case Analyzing(_) => s == NOTHING
    case Counting(_) => s == NOTHING.(analysis := Some(Ok))
    case ErrorMarking(_) => s == NOTHING.(analysis := Some(Fail))
    case ErrorCounting(_) => s == NOTHING.(analysis := Some(Fail))
    case CancelMarking(_) => s == NOTHING.(analysis := Some(Canceled))
    case LateErrorCounting(_, failed) =>
      && s.analysis == Some(Ok) && s.wentOn == Some(true)
      && if failed then s.combining == Some(Fail) && s.finalizing == None
         else s.combining == Some(Ok) && (s.finalizing == Some(Fail) || s.finalizing == Some(Canceled))
    case _ => true
  }

  predicate SaidHeld(at: Point, s: Said) {
    && s.analysis == Some(Ok) && s.finalizing == None
    && match at
       case Combined(failed) => s.combining == Some(if failed then Fail else Ok) && s.wentOn == None
       case Finalizing(failed) => s.combining == Some(if failed then Fail else Ok) && s.wentOn == Some(true)
       case LateErrorCounting(_, failed) => s.combining == Some(if failed then Fail else Ok) && s.wentOn == Some(true)
       case Unwinding => s.wentOn != Some(true)
       case _ => s.combining == None && s.wentOn == None
  }

  predicate SaidOwned(b: Worker, id: nat, s: Said)
    requires b.Busy?
  {
    && (id in b.todo ==> s == NOTHING)
    && (InHand(b.at) == Some(id) ==> SaidOf(b.at, s))
    && (id in b.held ==> SaidHeld(b.at, s))
    && (id in b.returned ==> s.analysis == Some(Ok) && s.wentOn != Some(true) && s.finalizing == None)
  }

  ghost predicate SaidGood(r: Run, id: nat, s: Said) {
    && (forall w | 0 <= w < |r.workers| && Owns(r.workers[w], id) :: SaidOwned(r.workers[w], id, s))
    && (Grouped(r.groups, id) || id !in r.registered ==> s == NOTHING)
    && (id in r.registered && !Owned(r.workers, id) && !Grouped(r.groups, id) ==> Verdict(CellOf(r.book, id).status, s))
  }

  // What a worker's own step says about an event in its hands.
  function HearOwn(b: Worker, stopped: bool, o: Outcome, id: nat, s: Said): Said
    requires b.Busy?
  {
    if b.at == Analyzing(id) then s.(analysis := Some(o))
    else if b.at == Combining && id in b.held then s.(combining := Some(o))
    else if b.at.Combined? && id in b.held then s.(wentOn := Some(!stopped))
    else if b.at == Finalizing(false) && |b.held| > 0 && b.held[0] == id then s.(finalizing := Some(o))
    else s
  }

  // Where an event is told by its cell, so it is in one place only.
  lemma OnePlace(k: Book, stopped: bool, b: Worker, id: nat)
    requires b.Busy? && WorkerGood(k, stopped, b) && Owns(b, id)
    ensures id in b.todo ==> id !in b.held && id !in b.returned && InHand(b.at) != Some(id)
    ensures id in b.held ==> id !in b.returned && InHand(b.at) != Some(id)
    ensures id in b.returned ==> InHand(b.at) != Some(id)
    ensures b.todo != [] ==> !(b.at.Combining? || b.at.Combined? || b.at.Finalizing? || b.at.LateErrorCounting? || b.at.Unwinding?)
    ensures b.returned != [] ==> b.at.Unwinding?
    ensures CellOf(k, id).status == if id in b.todo || b.at == Marking(id) || id in b.returned then Pending
                                    else if b.at == ErrorCounting(id) || (b.at.LateErrorCounting? && b.at.id == id) then Error else Running
  {
    hide NoDuplicates;
  }

  lemma Unnamed(k: Book, b: Worker, o: Outcome, id: nat)
    requires b.Busy? && !Names(WriteOf(b, o), id)
    ensures CellOf(Post(k, WriteOf(b, o)), id) == CellOf(k, id)
  {
    OthersUntouched(k, WriteOf(b, o));
  }

  lemma TodoSaid(k: Book, stopped: bool, b: Worker, o: Outcome, id: nat, s: Said)
    requires b.Busy? && WorkerGood(k, stopped, b) && Moved(b, stopped, o).Some? && id in b.todo && SaidOwned(b, id, s)
    ensures var n, c, t := Post(k, WriteOf(b, o)), Moved(b, stopped, o).value, HearOwn(b, stopped, o, id, s);
            if Owns(c, id) then SaidOwned(c, id, t) else Verdict(CellOf(n, id).status, t)
  {
    OnePlace(k, stopped, b, id);
    FirstOfDistinct(b.todo);
    Unnamed(k, b, o, id);
    hide CellOf, Post, NoDuplicates, WorkerGood;
  }

  lemma ReturnedSaid(k: Book, stopped: bool, b: Worker, o: Outcome, id: nat, s: Said)
    requires b.Busy? && WorkerGood(k, stopped, b) && Moved(b, stopped, o).Some? && id in b.returned && SaidOwned(b, id, s)
    ensures var n, c, t := Post(k, WriteOf(b, o)), Moved(b, stopped, o).value, HearOwn(b, stopped, o, id, s);
            if Owns(c, id) then SaidOwned(c, id, t) else Verdict(CellOf(n, id).status, t)
  {
    OnePlace(k, stopped, b, id);
    WithdrawKeepsStatus(k, b, o);
    hide CellOf, Post, NoDuplicates, WorkerGood;
    StatusOf(k, Post(k, WriteOf(b, o)), id);
    FirstOfDistinct(b.held);
    if |b.held| > 0 { Unnamed(k, b, o, id); }
  }

  lemma StatusOf(k: Book, n: Book, id: nat)
    ensures n.status == k.status ==> CellOf(n, id).status == CellOf(k, id).status
  {
  }

  lemma WithdrawKeepsStatus(k: Book, b: Worker, o: Outcome)
    requires b.Busy?
    ensures b.at.Unwinding? && |b.held| == 0 ==> Post(k, WriteOf(b, o)).status == k.status
  {
  }

  lemma HandSaid(k: Book, stopped: bool, b: Worker, o: Outcome, id: nat, s: Said)
    requires b.Busy? && WorkerGood(k, stopped, b) && Moved(b, stopped, o).Some? && InHand(b.at) == Some(id) && SaidOwned(b, id, s)
    requires id < |k.status|
    ensures var n, c, t := Post(k, WriteOf(b, o)), Moved(b, stopped, o).value, HearOwn(b, stopped, o, id, s);
            if Owns(c, id) then SaidOwned(c, id, t) else Verdict(CellOf(n, id).status, t)
  {
    OnePlace(k, stopped, b, id);
    if !b.at.Analyzing? { InHandCells(k, b, o); }
    hide CellOf, Post, NoDuplicates, WorkerGood;
  }

  lemma HeldFinalSaid(k: Book, stopped: bool, b: Worker, o: Outcome, id: nat, s: Said)
    requires b.Busy? && WorkerGood(k, stopped, b) && Moved(b, stopped, o).Some? && id in b.held && SaidOwned(b, id, s)
    requires id < |k.status| && (b.at.Finalizing? || b.at.Unwinding?) && b.held[0] == id
    ensures var n, c, t := Post(k, WriteOf(b, o)), Moved(b, stopped, o).value, HearOwn(b, stopped, o, id, s);
            if Owns(c, id) then SaidOwned(c, id, t) else Verdict(CellOf(n, id).status, t)
  {
    OnePlace(k, stopped, b, id);
    HeldFirst(k, stopped, b);
    SetCell(k, id, WriteOf(b, o).status);
    hide CellOf, Post, NoDuplicates, WorkerGood;
  }

  // An event held and staying held, in the steps of its group, and in the steps of another file.
  lemma HeldInGroup(b: Worker, stopped: bool, o: Outcome, id: nat, s: Said)
    requires b.Busy? && Moved(b, stopped, o).Some? && id in b.held && SaidOwned(b, id, s)
    requires b.at.Combining? || b.at.Combined? || b.at.Finalizing? || b.at.Unwinding?
    requires b.todo == [] && id !in b.returned && InHand(b.at) != Some(id)
    requires b.at.Finalizing? || b.at.Unwinding? ==> b.held[0] != id && id in b.held[1..]
    ensures var c, t := Moved(b, stopped, o).value, HearOwn(b, stopped, o, id, s); Owns(c, id) && SaidOwned(c, id, t)
  {
  }

  lemma HeldAtFile(b: Worker, stopped: bool, o: Outcome, id: nat, s: Said)
    requires b.Busy? && Moved(b, stopped, o).Some? && id in b.held && SaidOwned(b, id, s)
    requires !(b.at.Combining? || b.at.Combined? || b.at.Finalizing? || b.at.Unwinding? || b.at.Received?)
    requires id !in b.todo && id !in b.returned && InHand(b.at) != Some(id)
    ensures var c, t := Moved(b, stopped, o).value, HearOwn(b, stopped, o, id, s); Owns(c, id) && SaidOwned(c, id, t)
  {
  }

  lemma HeldOnSaid(k: Book, stopped: bool, b: Worker, o: Outcome, id: nat, s: Said)
    requires b.Busy? && WorkerGood(k, stopped, b) && Moved(b, stopped, o).Some? && id in b.held && SaidOwned(b, id, s)
    requires !((b.at.Finalizing? || b.at.Unwinding?) && b.held[0] == id)
    ensures var c, t := Moved(b, stopped, o).value, HearOwn(b, stopped, o, id, s); Owns(c, id) && SaidOwned(c, id, t)
  {
    OnePlace(k, stopped, b, id);
    HeldFirst(k, stopped, b);
    assert !b.at.Received?;
    hide WorkerGood, SaidOwned, HearOwn, Moved;
    if b.at.Combining? || b.at.Combined? || b.at.Finalizing? || b.at.Unwinding? {
      HeldInGroup(b, stopped, o, id, s);
    } else {
      HeldAtFile(b, stopped, o, id, s);
    }
  }

  lemma HeldSaid(k: Book, stopped: bool, b: Worker, o: Outcome, id: nat, s: Said)
    requires b.Busy? && WorkerGood(k, stopped, b) && Moved(b, stopped, o).Some? && id in b.held && SaidOwned(b, id, s)
    requires id < |k.status|
    ensures var n, c, t := Post(k, WriteOf(b, o)), Moved(b, stopped, o).value, HearOwn(b, stopped, o, id, s);
            if Owns(c, id) then SaidOwned(c, id, t) else Verdict(CellOf(n, id).status, t)
  {
    hide WorkerGood, Moved, Post, WriteOf, CellOf, SaidOwned, HearOwn, Verdict, InHand, Owns;
    if (b.at.Finalizing? || b.at.Unwinding?) && b.held[0] == id {
      HeldFinalSaid(k, stopped, b, o, id, s);
    } else {
      HeldOnSaid(k, stopped, b, o, id, s);
    }
  }

  lemma HeldFirst(k: Book, stopped: bool, b: Worker)
    requires b.Busy? && WorkerGood(k, stopped, b)
    ensures |b.held| > 0 ==> b.held[0] !in b.held[1..] && forall id: nat :: id in b.held <==> id == b.held[0] || id in b.held[1..]
  {
    FirstOfDistinct(b.held);
  }

  // A worker's step, for an event in its hands.
  lemma OwnSaid(k: Book, stopped: bool, b: Worker, o: Outcome, id: nat, s: Said)
    requires b.Busy? && WorkerGood(k, stopped, b) && Moved(b, stopped, o).Some? && Owns(b, id) && SaidOwned(b, id, s)
    requires id < |k.status|
    ensures var n, c, t := Post(k, WriteOf(b, o)), Moved(b, stopped, o).value, HearOwn(b, stopped, o, id, s);
            if Owns(c, id) then SaidOwned(c, id, t) else Verdict(CellOf(n, id).status, t)
  {
    hide WorkerGood, Moved, Post, WriteOf, CellOf, SaidOwned, HearOwn, Verdict, InHand;
    if id in b.todo {
      TodoSaid(k, stopped, b, o, id, s);
    } else if id in b.held {
      HeldSaid(k, stopped, b, o, id, s);
    } else if id in b.returned {
      ReturnedSaid(k, stopped, b, o, id, s);
    } else {
      HandSaid(k, stopped, b, o, id, s);
    }
  }

  // ---- the whole pool ----

  lemma HearsOwn(r: Run, w: nat, o: Outcome, id: nat, s: Said)
    requires w < |r.workers| && r.workers[w].Busy?
    ensures Hear(r, Turn(w, o), id, s) == HearOwn(r.workers[w], r.stopped, o, id, s)
    ensures !Owns(r.workers[w], id) ==> Hear(r, Turn(w, o), id, s) == s
  {
  }

  lemma TurnSaid(r: Run, w: nat, o: Outcome, id: nat, s: Said)
    requires Inv(r) && w < |r.workers| && r.workers[w].Busy? && Worked(r, w, o).Some? && SaidGood(r, id, s)
    ensures SaidGood(Worked(r, w, o).value, id, Hear(r, Turn(w, o), id, s))
  {
    var b, n := r.workers[w], Worked(r, w, o).value;
    var t := Hear(r, Turn(w, o), id, s);
    HearsOwn(r, w, o, id, s);
    WorkedTouches(r, w, o);
    OwnedOnlyShrinks(r, n, w);
    OwnsOwned(r.workers, w);
    OwnsOwned(n.workers, w);
    assert n.book == Post(r.book, WriteOf(b, o)) && n.workers[w] == Moved(b, r.stopped, o).value;
    hide Owns, Owned, SaidOwned, Hear, HearOwn, Verdict, CellOf, WorkerGood, Moved, Post, WriteOf, Grouped, Disjoint, Released, BookGood;
    if Owns(b, id) {
      assert id in r.registered && id < |r.book.status| by { RegisteredIsThere(r, w, id); }
      GoodWorker(r, w);
      OwnSaid(r.book, r.stopped, b, o, id, s);
      assert forall v | 0 <= v < |n.workers| && v != w :: !Owns(n.workers[v], id);
    }
  }

  lemma GoodWorker(r: Run, w: nat)
    requires Inv(r) && w < |r.workers|
    ensures WorkerGood(r.book, r.stopped, r.workers[w]) && WorkersGood(r)
  {
    hide WorkerGood, GroupsGood, RestGood, PhaseGood, BookGood;
  }

  lemma RegisteredIsThere(r: Run, w: nat, id: nat)
    requires Inv(r) && w < |r.workers| && Owns(r.workers[w], id)
    ensures id in r.registered && id < |r.book.status| && !Grouped(r.groups, id)
  {
    hide Owns, WorkerGood, RestGood, PhaseGood, Disjoint, CellOf;
    OwnsOwned(r.workers, w);
  }

  lemma ArriveSaid(r: Run, mine: bool, id: nat, s: Said)
    requires Inv(r) && SaidGood(r, id, s)
    ensures SaidGood(Next(r, Arrive(mine)).value, id, s)
  {
    SameCellsOnArrival(r.book);
    hide Owns, Owned, SaidOwned, Verdict, CellOf, Grouped, Inv;
  }

  lemma DispatchSaid(r: Run, w: nat, id: nat, s: Said)
    requires Inv(r) && Next(r, Dispatch(w)).Some? && SaidGood(r, id, s)
    ensures SaidGood(Next(r, Dispatch(w)).value, id, s)
  {
    var n := Next(r, Dispatch(w)).value;
    DispatchedGood(r);
    OwnedAfterDispatch(r, n, w);
    assert id in r.groups[0] ==> SaidOwned(n.workers[w], id, s);
    hide Owns, Owned, SaidOwned, Verdict, CellOf, Grouped, Disjoint, WorkersGood, RestGood, BookGood, WorkerGood;
  }

  lemma QuitSaid(r: Run, w: nat, id: nat, s: Said)
    requires Inv(r) && Next(r, Quit(w)).Some? && SaidGood(r, id, s)
    ensures SaidGood(Next(r, Quit(w)).value, id, s)
  {
    var n := Next(r, Quit(w)).value;
    if Owned(r.workers, id) {
      var v :| 0 <= v < |r.workers| && Owns(r.workers[v], id);
      assert Owns(n.workers[v], id);
    }
    hide Owned, SaidOwned, Verdict, CellOf, Grouped, Inv;
  }

  lemma RereadSaid(r: Run, groups: seq<seq<nat>>, id: nat, s: Said)
    requires Inv(r) && Next(r, Reread(groups)).Some? && SaidGood(r, id, s)
    ensures SaidGood(Next(r, Reread(groups)).value, id, s)
  {
    var n := Next(r, Reread(groups)).value;
    NonePending(r);
    NoneOwned(r);
    NothingGrouped(id);
    hide CellOf, Disjoint, Settled, WorkerGood, PendingIds, Owns, Owned, SaidOwned, Verdict, BookGood, WorkersGood, GroupsGood;
    if |groups| > 0 { IdleOwnNothing(n.workers); }
  }

  lemma StepSaid(r: Run, step: Step, id: nat, s: Said)
    requires Inv(r) && Next(r, step).Some? && SaidGood(r, id, s)
    ensures SaidGood(Next(r, step).value, id, Hear(r, step, id, s))
  {
    hide Inv, Worked, PendingIds, SaidGood;
    match step
    case Arrive(mine) => ArriveSaid(r, mine, id, s);
    case Dispatch(w) => DispatchSaid(r, w, id, s);
    case Quit(w) => QuitSaid(r, w, id, s);
    case Turn(w, o) => TurnSaid(r, w, o, id, s);
    case Reread(groups) => RereadSaid(r, groups, id, s);
    case _ => QuietSaid(r, step, id, s);
  }

  lemma QuietSaid(r: Run, step: Step, id: nat, s: Said)
    requires Next(r, step).Some? && SaidGood(r, id, s)
    requires step.Stop? || step.Close? || step.WaveOver? || step.CheckStop? || step.Again? || step.Finish?
    ensures SaidGood(Next(r, step).value, id, s)
  {
    hide Owns, Owned, SaidOwned, Verdict, CellOf, Grouped;
  }

  lemma {:induction false} ToldGood(r: Run, steps: seq<Step>, end: Run, id: nat, s: Said)
    requires Inv(r) && Reaches(r, steps, end) && SaidGood(r, id, s)
    ensures Inv(end) && SaidGood(end, id, Told(r, steps, id, s))
    decreases |steps|
  {
    hide Inv, Next, SaidGood, Hear;
    if |steps| > 0 {
      NextKeeps(r, steps[0]);
      StepSaid(r, steps[0], id, s);
      ToldGood(Next(r, steps[0]).value, steps[1..], end, id, Hear(r, steps[0], id, s));
    }
  }

  lemma StartSaid(r: Run, id: nat)
    requires Started(r)
    ensures SaidGood(r, id, NOTHING)
  {
    hide Disjoint, PendingIds, CellOf, Verdict;
  }

  lemma EndSaid(end: Run, id: nat, s: Said)
    requires Inv(end) && end.phase.Returned? && SaidGood(end, id, s) && id in end.registered
    ensures id < |end.book.status| && Verdict(end.book.status[id], s)
  {
    NoneOwned(end);
    hide Owned, SaidOwned, WorkersGood, Disjoint, Verdict;
    if Grouped(end.groups, id) { Unheard(end.book, id); }
  }

  lemma Unheard(k: Book, id: nat)
    requires CellOf(k, id) == FRESH
    ensures Verdict(CellOf(k, id).status, NOTHING)
  {
  }

  /** However everything interleaves: when a run returns, an event of it is in error exactly when its analysis failed,
      or its group went on and the combining failed, or its finalizing failed; it is complete exactly when its
      analysis, the combining and its finalizing all succeeded and the group was let go on; otherwise it is pending. */
  lemma OutcomeIsReported(start: Run, steps: seq<Step>, end: Run, id: nat)
    requires Started(start) && Reaches(start, steps, end) && end.phase.Returned? && id in end.registered
    ensures id < |end.book.status|
    ensures var s, status := Told(start, steps, id, NOTHING), end.book.status[id];
            && (status == Error <==> SaidError(s))
            && (status == Complete <==> SaidComplete(s))
            && (status == Pending <==> !SaidError(s) && !SaidComplete(s))
  {
    hide Reaches, Started, Inv, SaidGood, Told, SaidError, SaidComplete;
    StartGood(start);
    StartSaid(start, id);
    ToldGood(start, steps, end, id, NOTHING);
    EndSaid(end, id, Told(start, steps, id, NOTHING));
  }

  ghost function Completed(start: Run, steps: seq<Step>, end: Run): set<nat> {
    set id | id in end.registered && SaidComplete(Told(start, steps, id, NOTHING))
  }

  ghost function InError(start: Run, steps: seq<Step>, end: Run): set<nat> {
    set id | id in end.registered && SaidError(Told(start, steps, id, NOTHING))
  }

  /** And the published counters are the numbers of events that were reported so. */
  lemma CountersAreReported(start: Run, steps: seq<Step>, end: Run)
    requires Started(start) && Reaches(start, steps, end) && end.phase.Returned?
    ensures end.book.completed == |Completed(start, steps, end)| && end.book.failed == |InError(start, steps, end)|
  {
    hide Reaches, Started, Told, SaidError, SaidComplete;
    RunOutcome(start, steps, end);
    forall id | id in end.registered
      ensures id < |end.book.status|
      ensures end.book.status[id] == Complete <==> SaidComplete(Told(start, steps, id, NOTHING))
      ensures end.book.status[id] == Error <==> SaidError(Told(start, steps, id, NOTHING))
    {
      OutcomeIsReported(start, steps, end, id);
    }
    assert Among(end, Complete) == Completed(start, steps, end);
    assert Among(end, Error) == InError(start, steps, end);
  }

  // A combining that fails, Stop, and the check.
  lemma ThreeSteps(r: Run, w: nat)
    requires w < |r.workers| && r.workers[w].Busy? && r.workers[w].at.Combining? && |r.workers[w].held| > 0
    ensures Next(r, Turn(w, Fail)).Some?
    ensures Next(Next(r, Turn(w, Fail)).value, Stop).Some?
    ensures var n := Next(Next(Next(r, Turn(w, Fail)).value, Stop).value, Turn(w, Ok));
            n.Some? && w < |n.value.workers| && n.value.workers[w] == r.workers[w].(at := Unwinding)
  {
  }

  lemma ReachesNext(r: Run, steps: seq<Step>, end: Run)
    requires Reaches(r, steps, end) && |steps| > 0
    ensures Next(r, steps[0]).Some? && Reaches(Next(r, steps[0]).value, steps[1..], end)
  {
  }

  /** Why the group must have gone on: where Stop comes between a combining that fails and the check behind it, all
      events of the group end pending, not in error. */
  lemma FailureBeforeStop(r: Run, w: nat, rest: seq<Step>, end: Run)
    requires Inv(r) && w < |r.workers| && r.workers[w].Busy? && r.workers[w].at.Combining? && |r.workers[w].held| > 0
    requires Reaches(r, [Turn(w, Fail), Stop, Turn(w, Ok)] + rest, end) && end.phase.Returned?
    ensures forall id | id in r.workers[w].held :: CellOf(end.book, id) == FRESH
  {
    hide Inv, Reaches, Next;
    var steps := [Turn(w, Fail), Stop, Turn(w, Ok)] + rest;
    ThreeSteps(r, w);
    ReachesNext(r, steps, end);
    var r1 := Next(r, steps[0]).value;
    ReachesNext(r1, steps[1..], end);
    var r2 := Next(r1, Stop).value;
    ReachesNext(r2, steps[1..][1..], end);
    var r3 := Next(r2, Turn(w, Ok)).value;
    assert steps[1..][1..][1..] == rest;
    NextKeeps(r, Turn(w, Fail));
    NextKeeps(r1, Stop);
    NextKeeps(r2, Turn(w, Ok));
    CutShortRun(r3, rest, end, w);
    assert forall id | id in r.workers[w].held :: Owns(r3.workers[w], id);
  }

  /** What may happen: Stop and new captures at any moment, and at every point of a worker every outcome, but that work is
      cancelled only after a Stop and that combining nothing succeeds. */
  lemma EveryOutcome(r: Run, w: nat, o: Outcome, mine: bool)
    ensures Next(r, Stop).Some? && Next(r, Arrive(mine)).Some?
    ensures w < |r.workers| && r.workers[w].Busy? ==>
              var b, cancelled := r.workers[w], o == Canceled;
              && (Next(r, Turn(w, o)).Some? <==>
                  && (cancelled && (b.at.Analyzing? || b.at.Combining?) ==> r.stopped)
                  && (b.at.Combining? && b.held == [] ==> o == Ok))
  {
  }
}
