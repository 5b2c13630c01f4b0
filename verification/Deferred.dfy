/** The worker pool of server/internal/app/deferred_analysis.go as the steps its goroutines, the
    dispatcher, Stop and a still running collection can take in any order.  Events are named by their
    position in the store. */
module Deferred {
  import opened Wrappers

  datatype Status = Pending | Running | Complete | Error

  /** A worker and, while it processes a group, the events it has not reached, the successful ones not
      yet finalized, and those it has put back to pending while unwinding. */
  datatype Worker = Idle | Exited | Busy(todo: seq<nat>, held: seq<nat>, returned: seq<nat>, at: Point)

  // Where the worker stands in processDeferredGroup, with the event in hand.
  datatype Point =
    | Received | Loop | Marking(id: nat) | Analyzing(id: nat) | Counting(id: nat)
    | ErrorMarking(id: nat) | ErrorCounting(id: nat) | CancelMarking(id: nat)
    | Combining | Combined(failed: bool) | Finalizing(failed: bool) | LateErrorCounting(id: nat, failed: bool)
    | Unwinding

  // The dispatcher: inside a wave, after it, looking for new captures, waiting for them, returned (and
  // whether that was with nothing left to do).
  datatype Phase = Wave | Waited | Rereading | Watching | Returned(idle: bool)

  /** The status of every event, the published counters, and which events the counters stand for. */
  datatype Book = Book(status: seq<Status>, completed: int, failed: int, counted: set<nat>, failures: set<nat>)

  // mine: whether the job filter selects the event.  registered: the events total stands for.
  datatype Run = Run(book: Book, mine: seq<bool>, registered: set<nat>, total: int, groups: seq<seq<nat>>, closed: bool,
                     workers: seq<Worker>, stopped: bool, phase: Phase)

  datatype Outcome = Ok | Fail | Canceled

  datatype Step =
    | Arrive(mine: bool)           // collection appends a pending capture
    | Stop
    | Dispatch(w: nat)             // work <- events
    | Close                        // close(work): all handed out, or stopped
    | Quit(w: nat)                 // the range over work ends
    | Turn(w: nat, outcome: Outcome)
    | WaveOver                     // workers.Wait() returns
    | CheckStop
    | Reread(groups: seq<seq<nat>>)
    | Again                        // nothing yet, but collection still runs
    | Finish                       // caught up

  // ---- grouping, as far as the pool depends on it ----

  ghost predicate NoDuplicates(ids: seq<nat>) { forall i, j | 0 <= i < j < |ids| :: ids[i] != ids[j] }

  function SetOf(ids: seq<nat>): set<nat> { set id | id in ids }

  lemma FirstOfDistinct(ids: seq<nat>)
    ensures |ids| > 0 && NoDuplicates(ids) ==> NoDuplicates(ids[1..]) && ids[0] !in ids[1..]
    ensures |ids| > 0 ==> forall id: nat :: id in ids <==> id == ids[0] || id in ids[1..]
  {
    if |ids| > 0 { assert ids == [ids[0]] + ids[1..]; }
  }

  lemma LastOfDistinct(ids: seq<nat>, id: nat)
    ensures NoDuplicates(ids) && id !in ids ==> NoDuplicates(ids + [id])
    ensures forall j: nat :: j in ids + [id] <==> j == id || j in ids
  {
  }

  lemma NoneDistinct()
    ensures NoDuplicates([])
  {
  }

  lemma {:induction false} DistinctSize(ids: seq<nat>)
    requires NoDuplicates(ids)
    ensures |SetOf(ids)| == |ids|
  {
    hide NoDuplicates;
    if |ids| > 0 {
      FirstOfDistinct(ids);
      DistinctSize(ids[1..]);
      assert SetOf(ids) == {ids[0]} + SetOf(ids[1..]);
    }
  }

  ghost predicate Grouped(groups: seq<seq<nat>>, id: nat) { exists k | 0 <= k < |groups| :: id in groups[k] }

  // Non-empty groups of distinct events, no event in two.
  ghost predicate Disjoint(groups: seq<seq<nat>>) {
    && (forall k | 0 <= k < |groups| :: groups[k] != [] && NoDuplicates(groups[k]))
    && (forall j, k, id: nat | 0 <= j < k < |groups| :: !(id in groups[j] && id in groups[k]))
  }

  ghost predicate Partitions(groups: seq<seq<nat>>, ids: set<nat>) {
    Disjoint(groups) && forall id: nat :: id in ids <==> Grouped(groups, id)
  }

  function Files(groups: seq<seq<nat>>): nat {
    if |groups| == 0 then 0 else |groups[0]| + Files(groups[1..])
  }

  // ---- the steps ----

  // What a step writes to the store or the counters.
  datatype Write =
    | Nothing | SetTo(id: nat, status: Status) | Success(id: nat) | Failure(id: nat) | LateFailure(id: nat) | Withdraw(ids: seq<nat>)

  function With(ids: set<nat>, id: nat): set<nat> { ids + {id} }

  function Without(ids: set<nat>, id: nat): set<nat> { ids - {id} }

  function Minus(ids: set<nat>, gone: seq<nat>): (r: set<nat>)
    ensures r <= ids
  {
    ids - SetOf(gone)
  }

  function Post(k: Book, write: Write): Book {
    match write
    case Nothing => k
    case SetTo(id, s) => if id < |k.status| then k.(status := k.status[id := s]) else k
    case Success(id) => k.(completed := k.completed + 1, counted := With(k.counted, id))
    case Failure(id) => k.(failed := k.failed + 1, failures := With(k.failures, id))
    case LateFailure(id) =>
      k.(completed := k.completed - 1, failed := k.failed + 1, counted := Without(k.counted, id), failures := With(k.failures, id))
    case Withdraw(ids) => k.(completed := k.completed - |ids|, counted := Minus(k.counted, ids))
  }

  function WriteOf(b: Worker, o: Outcome): Write
    requires b.Busy?
  {
    match b.at
    case Marking(id) => SetTo(id, Running)
    case Counting(id) => Success(id)
    case ErrorMarking(id) => SetTo(id, Error)
    case ErrorCounting(id) => Failure(id)
    case CancelMarking(id) => SetTo(id, Pending)
    case Finalizing(failed) => if |b.held| == 0 then Nothing else SetTo(b.held[0], if failed || !o.Ok? then Error else Complete)
    case LateErrorCounting(id, _) => LateFailure(id)
    case Unwinding => if |b.held| > 0 then SetTo(b.held[0], Pending) else Withdraw(b.returned)
    case _ => Nothing
  }

  // Where the worker is after the step; None where the outcome is impossible.
  function Moved(b: Worker, stopped: bool, o: Outcome): Option<Worker>
    requires b.Busy?
  {
    match b.at
    case Received => Some(if stopped then Exited else b.(at := Loop))
    case Loop =>
      if |b.todo| == 0 then Some(b.(at := Combining))
      else if stopped then Some(b.(todo := [], at := Unwinding))
      else Some(b.(todo := b.todo[1..], at := Marking(b.todo[0])))
    case Marking(id) => Some(b.(at := Analyzing(id)))
    case Analyzing(id) =>
      if o.Canceled? && !stopped then None
      else Some(b.(at := match o case Ok => Counting(id) case Fail => ErrorMarking(id) case Canceled => CancelMarking(id)))
    case Counting(id) => Some(b.(held := b.held + [id], at := Loop))
    case ErrorMarking(id) => Some(b.(at := ErrorCounting(id)))
    case ErrorCounting(id) => Some(b.(at := Loop))
    case CancelMarking(id) => Some(b.(todo := [], at := Unwinding))
    case Combining =>
      if (o.Canceled? && !stopped) || (!o.Ok? && |b.held| == 0) then None
      else Some(b.(at := if o.Canceled? then Unwinding else Combined(o.Fail?)))
    case Combined(failed) => Some(b.(at := if stopped then Unwinding else Finalizing(failed)))
    case Finalizing(failed) =>
      if |b.held| == 0 then Some(Idle)
      else if failed || !o.Ok? then Some(b.(held := b.held[1..], at := LateErrorCounting(b.held[0], failed)))
      else Some(b.(held := b.held[1..]))
    case LateErrorCounting(id, failed) => Some(b.(at := Finalizing(failed)))
    case Unwinding => if |b.held| > 0 then Some(b.(held := b.held[1..], returned := b.returned + [b.held[0]])) else Some(Idle)
  }

  // PendingAnalysis
  function PendingIds(r: Run): set<nat>
    requires |r.mine| == |r.book.status|
  {
    set id: nat | 0 <= id < |r.book.status| && r.book.status[id] == Pending && r.mine[id]
  }

  function At(r: Run, w: nat, worker: Worker): Run
    requires w < |r.workers|
  {
    r.(workers := r.workers[w := worker])
  }

  // One step of processDeferredGroup by worker w.
  function Worked(r: Run, w: nat, o: Outcome): Option<Run>
    requires w < |r.workers| && r.workers[w].Busy?
  {
    match Moved(r.workers[w], r.stopped, o)
    case None => None
    case Some(c) => Some(At(r.(book := Post(r.book, WriteOf(r.workers[w], o))), w, c))
  }

  ghost function Next(r: Run, step: Step): Option<Run> {
    match step
    case Arrive(mine) => Some(r.(book := r.book.(status := r.book.status + [Pending]), mine := r.mine + [mine]))
    case Stop => Some(r.(stopped := true))
    case Dispatch(w) =>
      if r.phase.Wave? && !r.closed && |r.groups| > 0 && w < |r.workers| && r.workers[w].Idle? then
        Some(At(r, w, Busy(r.groups[0], [], [], Received)).(groups := r.groups[1..]))
      else None
    case Close => if r.phase.Wave? && !r.closed && (|r.groups| == 0 || r.stopped) then Some(r.(closed := true)) else None
    case Quit(w) => if r.closed && w < |r.workers| && r.workers[w].Idle? then Some(At(r, w, Exited)) else None
    case Turn(w, o) => if w < |r.workers| && r.workers[w].Busy? then Worked(r, w, o) else None
    case WaveOver =>
      if r.phase.Wave? && r.closed && forall w | 0 <= w < |r.workers| :: r.workers[w].Exited? then Some(r.(phase := Waited)) else None
    case CheckStop => if r.phase.Waited? then Some(r.(phase := if r.stopped then Returned(false) else Rereading)) else None
    case Reread(groups) =>
      if !r.phase.Rereading? || |r.mine| != |r.book.status| || !Partitions(groups, PendingIds(r)) then None
      else if |groups| == 0 then Some(r.(phase := Watching))
      else Some(r.(registered := r.registered + PendingIds(r), total := r.total + Files(groups), groups := groups, closed := false,
                   workers := seq(|r.workers|, _ => Idle), phase := Wave))
    case Again => if r.phase.Watching? then Some(r.(phase := Rereading)) else None
    case Finish => if r.phase.Watching? then Some(r.(phase := Returned(true))) else None
  }

  /** StartDeferredAnalysis with a non-empty queue. */
  ghost predicate Started(r: Run) {
    && |r.mine| == |r.book.status|
    && |r.workers| > 0 && (forall w | 0 <= w < |r.workers| :: r.workers[w].Idle?)
    && Partitions(r.groups, PendingIds(r)) && |r.groups| > 0
    && r.registered == PendingIds(r) && r.total == Files(r.groups)
    && r.book.completed == 0 && r.book.failed == 0 && r.book.counted == {} && r.book.failures == {}
    && !r.closed && !r.stopped && r.phase == Wave
  }

  ghost predicate Reaches(r: Run, steps: seq<Step>, end: Run)
    decreases |steps|
  {
    if |steps| == 0 then end == r
    else var next := Next(r, steps[0]); next.Some? && Reaches(next.value, steps[1..], end)
  }

  // ---- the invariant ----

  // An event as the run sees it: its status and whether a counter stands for it.
  datatype Cell = Cell(status: Status, counted: bool, failed: bool)

  const FRESH := Cell(Pending, false, false)
  const WORKING := Cell(Running, false, false)
  const HELD := Cell(Running, true, false)
  const RETURNED := Cell(Pending, true, false)

  predicate Settled(c: Cell) { c == FRESH || c == Cell(Complete, true, false) || c == Cell(Error, false, true) }

  function CellOf(k: Book, id: nat): Cell {
    Cell(if id < |k.status| then k.status[id] else Pending, id in k.counted, id in k.failures)
  }

  function InHand(p: Point): Option<nat> {
    match p
    case Marking(id) => Some(id)
    case Analyzing(id) => Some(id)
    case Counting(id) => Some(id)
    case ErrorMarking(id) => Some(id)
    case ErrorCounting(id) => Some(id)
    case CancelMarking(id) => Some(id)
    case LateErrorCounting(id, _) => Some(id)
    case _ => None
  }

  function CellInHand(p: Point): Cell {
    if p.Marking? then FRESH
    else if p.ErrorCounting? then Cell(Error, false, false)
    else if p.LateErrorCounting? then Cell(Error, true, false)
    else WORKING
  }

  predicate Owns(worker: Worker, id: nat) {
    worker.Busy? && (id in worker.todo || id in worker.held || id in worker.returned || InHand(worker.at) == Some(id))
  }

  // What a worker may rely on about the events of its group.
  ghost predicate WorkerGood(k: Book, stopped: bool, b: Worker) {
    b.Busy? ==>
      && NoDuplicates(b.todo) && NoDuplicates(b.held) && NoDuplicates(b.returned)
      && (forall id | id in b.todo :: CellOf(k, id) == FRESH)
      && (forall id | id in b.held :: CellOf(k, id) == HELD)
      && (forall id | id in b.returned :: CellOf(k, id) == RETURNED)
      && (InHand(b.at).Some? ==> CellOf(k, InHand(b.at).value) == CellInHand(b.at) && InHand(b.at).value !in b.todo)
      && PointGood(stopped, b)
  }

  predicate PointGood(stopped: bool, b: Worker)
    requires b.Busy?
  {
    && (b.at.Unwinding? ==> b.todo == [] && stopped)
    && (b.at.CancelMarking? ==> stopped)
    && (b.at.Combining? || b.at.Combined? || b.at.Finalizing? || b.at.LateErrorCounting? ==> b.todo == [])
    && (!b.at.Unwinding? ==> b.returned == [])
    && (b.at.Received? ==> b.held == [])
  }

  // Everything registered still has to be brought to complete or error.
  predicate Draining(r: Run) { !r.stopped || r.phase.Rereading? || r.phase.Watching? || r.phase == Returned(true) }

  predicate Owned(workers: seq<Worker>, id: nat) { exists w | 0 <= w < |workers| :: Owns(workers[w], id) }

  ghost predicate BookGood(k: Book, registered: set<nat>) {
    && (forall id | id in registered :: id < |k.status|)
    && k.counted <= registered && k.failures <= registered
    && k.completed == |k.counted| && k.failed == |k.failures|
  }

  ghost predicate WorkersGood(r: Run) {
    && (forall w | 0 <= w < |r.workers| :: WorkerGood(r.book, r.stopped, r.workers[w]))
    && (forall w, id: nat | 0 <= w < |r.workers| && Owns(r.workers[w], id) :: id in r.registered)
    && (forall v, w, id: nat | 0 <= v < w < |r.workers| && Owns(r.workers[v], id) :: !Owns(r.workers[w], id))
  }

  ghost predicate GroupsGood(r: Run) {
    && Disjoint(r.groups)
    && (forall id: nat | Grouped(r.groups, id) :: id in r.registered && CellOf(r.book, id) == FRESH && !Owned(r.workers, id))
  }

  ghost predicate RestGood(r: Run) {
    forall id | id in r.registered && !Owned(r.workers, id) && !Grouped(r.groups, id) :: Rests(r, id)
  }

  ghost predicate Rests(r: Run, id: nat) {
    Settled(CellOf(r.book, id)) && (Draining(r) ==> CellOf(r.book, id) != FRESH)
  }

  ghost predicate PhaseGood(r: Run) {
    && |r.mine| == |r.book.status| && r.total == |r.registered|
    && (!r.phase.Wave? ==> forall w | 0 <= w < |r.workers| :: r.workers[w].Exited?)
    && ((r.closed || !r.phase.Wave?) && Draining(r) ==> r.groups == [])
    && (r.phase == Returned(false) ==> r.stopped)
  }

  ghost predicate Inv(r: Run) {
    BookGood(r.book, r.registered) && WorkersGood(r) && GroupsGood(r) && RestGood(r) && PhaseGood(r)
  }

  // ---- a worker's step, on its own ----

  // The events a write is about.
  predicate Names(write: Write, id: nat) {
    match write
    case Nothing => false
    case SetTo(k, _) => id == k
    case Success(k) => id == k
    case Failure(k) => id == k
    case LateFailure(k) => id == k
    case Withdraw(ids) => id in ids
  }

  lemma OthersUntouched(k: Book, write: Write)
    ensures forall id: nat | !Names(write, id) :: CellOf(Post(k, write), id) == CellOf(k, id)
  {
  }

  lemma WritesOwn(b: Worker, o: Outcome)
    requires b.Busy?
    ensures forall id: nat | Names(WriteOf(b, o), id) :: Owns(b, id)
  {
  }

  lemma OwnershipShrinks(b: Worker, stopped: bool, o: Outcome)
    requires b.Busy? && Moved(b, stopped, o).Some?
    ensures forall id: nat | Owns(Moved(b, stopped, o).value, id) :: Owns(b, id)
  {
  }

  // The events a step lets go of are finished, or put back because of a stop.
  ghost predicate Released(k: Book, stopped: bool, b: Worker, c: Worker) {
    forall id: nat | Owns(b, id) && !Owns(c, id) :: Settled(CellOf(k, id)) && (!stopped ==> CellOf(k, id) != FRESH)
  }

  ghost predicate StepGood(k: Book, stopped: bool, b: Worker, o: Outcome)
    requires b.Busy? && Moved(b, stopped, o).Some?
  {
    var n, c := Post(k, WriteOf(b, o)), Moved(b, stopped, o).value;
    WorkerGood(n, stopped, c) && Released(n, stopped, b, c)
  }

  // Steps that write nothing.
  lemma QuietStep(k: Book, stopped: bool, b: Worker, o: Outcome)
    requires b.Busy? && WorkerGood(k, stopped, b) && Moved(b, stopped, o).Some? && WriteOf(b, o).Nothing?
    ensures StepGood(k, stopped, b, o)
  {
    hide CellOf, Moved, WorkerGood, Released;
    QuietKeeps(k, stopped, b, o);
    QuietReleases(k, stopped, b, o);
  }

  lemma QuietKeeps(k: Book, stopped: bool, b: Worker, o: Outcome)
    requires b.Busy? && WorkerGood(k, stopped, b) && Moved(b, stopped, o).Some? && WriteOf(b, o).Nothing?
    ensures WorkerGood(k, stopped, Moved(b, stopped, o).value)
  {
    hide CellOf, NoDuplicates;
    NoneDistinct();
    FirstOfDistinct(b.todo);
  }

  lemma QuietReleases(k: Book, stopped: bool, b: Worker, o: Outcome)
    requires b.Busy? && WorkerGood(k, stopped, b) && Moved(b, stopped, o).Some? && WriteOf(b, o).Nothing?
    ensures Released(k, stopped, b, Moved(b, stopped, o).value)
  {
    hide CellOf, NoDuplicates;
    FirstOfDistinct(b.todo);
  }

  lemma SetCell(k: Book, id: nat, s: Status)
    requires id < |k.status|
    ensures CellOf(Post(k, SetTo(id, s)), id) == CellOf(k, id).(status := s)
  {
  }

  lemma CountedCells(k: Book, id: nat)
    ensures CellOf(Post(k, Success(id)), id) == CellOf(k, id).(counted := true)
    ensures CellOf(Post(k, Failure(id)), id) == CellOf(k, id).(failed := true)
    ensures CellOf(Post(k, LateFailure(id)), id) == CellOf(k, id).(counted := false, failed := true)
  {
  }

  // Steps about the event in hand.
  lemma InHandStep(k: Book, stopped: bool, b: Worker, o: Outcome)
    requires b.Busy? && WorkerGood(k, stopped, b) && Moved(b, stopped, o).Some?
    requires InHand(b.at).Some? && !b.at.Analyzing? && InHand(b.at).value < |k.status|
    ensures StepGood(k, stopped, b, o)
  {
    hide CellOf, Post, NoDuplicates, WorkerGood, Released;
    InHandKeeps(k, stopped, b, o);
    InHandReleases(k, stopped, b, o);
  }

  lemma InHandCells(k: Book, b: Worker, o: Outcome)
    requires b.Busy? && InHand(b.at).Some? && !b.at.Analyzing? && InHand(b.at).value < |k.status|
    ensures var n, id := Post(k, WriteOf(b, o)), InHand(b.at).value;
            && (forall j: nat | j != id :: CellOf(n, j) == CellOf(k, j))
            && CellOf(n, id) == (match b.at
                 case Marking(_) => CellOf(k, id).(status := Running)
                 case Counting(_) => CellOf(k, id).(counted := true)
                 case ErrorMarking(_) => CellOf(k, id).(status := Error)
                 case ErrorCounting(_) => CellOf(k, id).(failed := true)
                 case CancelMarking(_) => CellOf(k, id).(status := Pending)
                 case _ => CellOf(k, id).(counted := false, failed := true))
  {
    hide CellOf, Post;
    var write, id := WriteOf(b, o), InHand(b.at).value;
    OthersUntouched(k, write);
    CountedCells(k, id);
    if write.SetTo? { SetCell(k, id, write.status); }
  }

  lemma InHandKeeps(k: Book, stopped: bool, b: Worker, o: Outcome)
    requires b.Busy? && WorkerGood(k, stopped, b) && Moved(b, stopped, o).Some?
    requires InHand(b.at).Some? && !b.at.Analyzing? && InHand(b.at).value < |k.status|
    ensures WorkerGood(Post(k, WriteOf(b, o)), stopped, Moved(b, stopped, o).value)
  {
    InHandCells(k, b, o);
    hide CellOf, Post, NoDuplicates, WriteOf;
    NoneDistinct();
    LastOfDistinct(b.held, InHand(b.at).value);
  }

  lemma InHandReleases(k: Book, stopped: bool, b: Worker, o: Outcome)
    requires b.Busy? && WorkerGood(k, stopped, b) && Moved(b, stopped, o).Some?
    requires InHand(b.at).Some? && !b.at.Analyzing? && InHand(b.at).value < |k.status|
    ensures Released(Post(k, WriteOf(b, o)), stopped, b, Moved(b, stopped, o).value)
  {
    InHandCells(k, b, o);
    hide CellOf, Post, NoDuplicates, WriteOf;
  }

  // Steps that finalize the first successful event, or put it back.
  lemma HeldStep(k: Book, stopped: bool, b: Worker, o: Outcome)
    requires b.Busy? && WorkerGood(k, stopped, b) && Moved(b, stopped, o).Some?
    requires (b.at.Finalizing? || b.at.Unwinding?) && |b.held| > 0 && b.held[0] < |k.status|
    ensures StepGood(k, stopped, b, o)
  {
    hide CellOf, Post, NoDuplicates;
    var write, id := WriteOf(b, o), b.held[0];
    FirstOfDistinct(b.held);
    LastOfDistinct(b.returned, id);
    OthersUntouched(k, write);
    SetCell(k, id, write.status);
  }

  // The deferred cleanup ends: what was put back is no longer counted.
  lemma WithdrawStep(k: Book, stopped: bool, b: Worker, o: Outcome)
    requires b.Busy? && WorkerGood(k, stopped, b) && b.at.Unwinding? && |b.held| == 0
    ensures StepGood(k, stopped, b, o)
  {
  }

  lemma AnyStep(k: Book, stopped: bool, b: Worker, o: Outcome)
    requires b.Busy? && WorkerGood(k, stopped, b) && Moved(b, stopped, o).Some?
    requires forall id: nat | Owns(b, id) :: id < |k.status|
    ensures StepGood(k, stopped, b, o)
  {
    hide WorkerGood, StepGood, CellOf;
    if WriteOf(b, o).Nothing? {
      QuietStep(k, stopped, b, o);
    } else if InHand(b.at).Some? {
      assert Owns(b, InHand(b.at).value);
      InHandStep(k, stopped, b, o);
    } else if |b.held| > 0 {
      assert Owns(b, b.held[0]);
      HeldStep(k, stopped, b, o);
    } else {
      WithdrawStep(k, stopped, b, o);
    }
  }

  // ---- the counters ----

  lemma OneMore(ids: set<nat>, id: nat)
    ensures |With(ids, id)| == |ids| + if id in ids then 0 else 1
    ensures |Without(ids, id)| == |ids| - if id in ids then 1 else 0
    ensures forall j :: j in With(ids, id) <==> j == id || j in ids
    ensures forall j :: j in Without(ids, id) <==> j != id && j in ids
  {
    if id in ids { assert ids + {id} == ids; }
    if id !in ids { assert ids - {id} == ids; }
  }

  // What a write needs for the counters to stay the sizes of their sets.
  ghost predicate Countable(k: Book, write: Write, registered: set<nat>) {
    match write
    case Success(id) => id in registered && id !in k.counted
    case Failure(id) => id in registered && id !in k.failures
    case LateFailure(id) => id in registered && id in k.counted && id !in k.failures
    case Withdraw(ids) => |Minus(k.counted, ids)| == |k.counted| - |ids|
    case _ => true
  }

  lemma PostGood(k: Book, write: Write, registered: set<nat>)
    requires BookGood(k, registered) && Countable(k, write, registered)
    ensures BookGood(Post(k, write), registered)
  {
    hide With, Without, Minus;
    match write
    case Success(id) => OneMore(k.counted, id);
    case Failure(id) => OneMore(k.failures, id);
    case LateFailure(id) => OneMore(k.counted, id); OneMore(k.failures, id);
    case _ =>
  }

  lemma CountersKept(k: Book, registered: set<nat>, stopped: bool, b: Worker, o: Outcome)
    requires BookGood(k, registered) && b.Busy? && WorkerGood(k, stopped, b)
    requires forall id: nat | Owns(b, id) :: id in registered
    ensures BookGood(Post(k, WriteOf(b, o)), registered)
  {
    hide WorkerGood, SetOf, Post, BookGood;
    if InHand(b.at).Some? {
      assert Owns(b, InHand(b.at).value);
      InHandCell(k, stopped, b);
    }
    WithdrawnCount(k, stopped, b);
    PostGood(k, WriteOf(b, o), registered);
  }

  lemma InHandCell(k: Book, stopped: bool, b: Worker)
    requires b.Busy? && WorkerGood(k, stopped, b) && InHand(b.at).Some?
    ensures var id := InHand(b.at).value; (id in k.counted <==> b.at.LateErrorCounting?) && id !in k.failures
  {
  }

  lemma WithdrawnCount(k: Book, stopped: bool, b: Worker)
    requires b.Busy? && WorkerGood(k, stopped, b)
    ensures |Minus(k.counted, b.returned)| == |k.counted| - |b.returned|
  {
    DistinctSize(b.returned);
    var back := SetOf(b.returned);
    forall id | id in back ensures id in k.counted { assert CellOf(k, id) == RETURNED; }
    assert k.counted == back + (k.counted - back);
  }

  // ---- a worker's step, among the others ----

  lemma OneOwner(r: Run, v: nat, w: nat)
    requires WorkersGood(r) && v < |r.workers| && w < |r.workers| && v != w
    ensures forall id: nat | Owns(r.workers[v], id) :: !Owns(r.workers[w], id)
  {
    hide Owns, WorkerGood;
  }

  lemma SameCells(k: Book, n: Book, stopped: bool, b: Worker)
    requires WorkerGood(k, stopped, b)
    requires forall id: nat | Owns(b, id) :: CellOf(n, id) == CellOf(k, id)
    ensures WorkerGood(n, stopped, b)
  {
    hide CellOf;
  }

  // What the pool needs to know of a step of worker w: it leaves the others' events alone, keeps some of its
  // own and settles the rest.
  ghost predicate OnlyTouches(r: Run, n: Run, w: nat) {
    && w < |r.workers| && r.workers[w].Busy?
    && |n.workers| == |r.workers| && n == At(r.(book := n.book), w, n.workers[w])
    && |n.book.status| == |r.book.status|
    && WorkerGood(n.book, r.stopped, n.workers[w]) && BookGood(n.book, r.registered)
    && (forall id: nat | Owns(n.workers[w], id) :: Owns(r.workers[w], id))
    && (forall id: nat | !Owns(r.workers[w], id) :: CellOf(n.book, id) == CellOf(r.book, id))
    && Released(n.book, r.stopped, r.workers[w], n.workers[w])
  }

  lemma WorkedTouches(r: Run, w: nat, o: Outcome)
    requires Inv(r) && w < |r.workers| && r.workers[w].Busy? && Worked(r, w, o).Some?
    ensures OnlyTouches(r, Worked(r, w, o).value, w)
  {
    hide Owns, CellOf, Moved, WriteOf, WorkerGood, Released, GroupsGood, RestGood, PhaseGood, Names;
    var b := r.workers[w];
    forall id: nat | Owns(b, id) ensures id in r.registered && id < |r.book.status| {}
    AnyStep(r.book, r.stopped, b, o);
    OwnershipShrinks(b, r.stopped, o);
    WritesOwn(b, o);
    OthersUntouched(r.book, WriteOf(b, o));
    CountersKept(r.book, r.registered, r.stopped, b, o);
  }

  lemma OthersGood(r: Run, n: Run, w: nat)
    requires WorkersGood(r) && OnlyTouches(r, n, w)
    ensures WorkersGood(n)
  {
    hide CellOf, CellInHand, Settled, WorkerGood, Owns, Released, BookGood;
    forall v | 0 <= v < |n.workers| && v != w ensures WorkerGood(n.book, n.stopped, n.workers[v]) {
      assert WorkerGood(r.book, r.stopped, r.workers[v]);
      OneOwner(r, v, w);
      SameCells(r.book, n.book, r.stopped, r.workers[v]);
    }
    forall u, v, id: nat | 0 <= u < v < |n.workers| && Owns(n.workers[u], id) ensures !Owns(n.workers[v], id) {
      assert Owns(r.workers[u], id);
      assert !Owns(r.workers[v], id);
    }
  }

  lemma OwnedOnlyShrinks(r: Run, n: Run, w: nat)
    requires OnlyTouches(r, n, w)
    ensures forall id: nat | Owned(n.workers, id) :: Owned(r.workers, id)
    ensures forall id: nat | Owned(r.workers, id) && !Owned(n.workers, id) :: Owns(r.workers[w], id) && !Owns(n.workers[w], id)
  {
    hide CellOf, Settled, Owns, WorkerGood, Released, BookGood;
    forall id: nat | Owned(n.workers, id) ensures Owned(r.workers, id) {
      var v :| 0 <= v < |n.workers| && Owns(n.workers[v], id);
      assert Owns(r.workers[v], id);
    }
    forall id: nat | Owned(r.workers, id) && !Owned(n.workers, id) ensures Owns(r.workers[w], id) && !Owns(n.workers[w], id) {
      var v :| 0 <= v < |r.workers| && Owns(r.workers[v], id);
      assert !Owns(n.workers[v], id) && !Owns(n.workers[w], id);
    }
  }

  lemma TurnKeeps(r: Run, w: nat, o: Outcome)
    requires Inv(r) && w < |r.workers| && r.workers[w].Busy? && Worked(r, w, o).Some?
    ensures Inv(Worked(r, w, o).value)
  {
    hide CellOf, Settled, Owns, WorkerGood, BookGood, Disjoint, Grouped, Worked, Owned;
    var n := Worked(r, w, o).value;
    WorkedTouches(r, w, o);
    OthersGood(r, n, w);
    OwnedOnlyShrinks(r, n, w);
    OwnsOwned(r.workers, w);
    forall id: nat | Grouped(n.groups, id) ensures id in n.registered && CellOf(n.book, id) == FRESH && !Owned(n.workers, id) {
      assert !Owned(r.workers, id);
      assert !Owns(r.workers[w], id);
    }
    forall id | id in n.registered && !Owned(n.workers, id) && !Grouped(n.groups, id) ensures Rests(n, id) {
      if !Owned(r.workers, id) { assert Rests(r, id); assert !Owns(r.workers[w], id); }
    }
  }

  lemma OwnsOwned(workers: seq<Worker>, w: nat)
    requires w < |workers|
    ensures forall id: nat | Owns(workers[w], id) :: Owned(workers, id)
  {
    hide Owns;
  }

  // ---- the other steps ----

  lemma ArriveKeeps(r: Run, mine: bool)
    requires Inv(r)
    ensures Inv(Next(r, Arrive(mine)).value)
  {
    hide Owned, Owns, Disjoint, Grouped, Settled;
    var n := Next(r, Arrive(mine)).value;
    SameCellsOnArrival(r.book);
    hide CellOf, WorkerGood;
    forall w | 0 <= w < |n.workers| ensures WorkerGood(n.book, n.stopped, n.workers[w]) {
      assert WorkerGood(r.book, r.stopped, r.workers[w]);
      SameCells(r.book, n.book, r.stopped, r.workers[w]);
    }
    forall id | id in n.registered && !Owned(n.workers, id) && !Grouped(n.groups, id) ensures Rests(n, id) { assert Rests(r, id); }
  }

  lemma SameCellsOnArrival(k: Book)
    ensures forall id: nat :: CellOf(k.(status := k.status + [Pending]), id) == CellOf(k, id)
  {
  }

  lemma StopKeeps(r: Run)
    requires Inv(r)
    ensures Inv(Next(r, Stop).value)
  {
    hide Owned, Owns, Disjoint, Grouped, Settled, CellOf, BookGood;
    var n := Next(r, Stop).value;
    hide WorkerGood;
    forall w | 0 <= w < |n.workers| ensures WorkerGood(n.book, n.stopped, n.workers[w]) { StillGood(r.book, r.workers[w], r.stopped); }
    forall id | id in n.registered && !Owned(n.workers, id) && !Grouped(n.groups, id) ensures Rests(n, id) { assert Rests(r, id); }
  }

  lemma StillGood(k: Book, b: Worker, stopped: bool)
    requires WorkerGood(k, stopped, b)
    ensures WorkerGood(k, true, b)
  {
    hide CellOf, NoDuplicates;
  }

  lemma DispatchedGood(r: Run)
    requires GroupsGood(r) && |r.groups| > 0
    ensures WorkerGood(r.book, r.stopped, Busy(r.groups[0], [], [], Received)) && Disjoint(r.groups[1..])
    ensures forall id: nat :: Grouped(r.groups, id) <==> id in r.groups[0] || Grouped(r.groups[1..], id)
    ensures forall id: nat :: !(id in r.groups[0] && Grouped(r.groups[1..], id))
  {
    hide CellOf, Owned;
    var rest := r.groups[1..];
    NoneDistinct();
    forall id: nat ensures Grouped(r.groups, id) <==> id in r.groups[0] || Grouped(rest, id) {
      if Grouped(r.groups, id) {
        var k :| 0 <= k < |r.groups| && id in r.groups[k];
        assert k > 0 ==> id in rest[k - 1];
      }
      if Grouped(rest, id) {
        var k :| 0 <= k < |rest| && id in rest[k];
        assert id in r.groups[k + 1];
      }
      assert id in r.groups[0] ==> Grouped(r.groups, id);
    }
    forall k | 0 <= k < |rest| ensures rest[k] != [] && NoDuplicates(rest[k]) { assert rest[k] == r.groups[k + 1]; }
    forall j, k, id: nat | 0 <= j < k < |rest| ensures !(id in rest[j] && id in rest[k]) {
      assert rest[j] == r.groups[j + 1] && rest[k] == r.groups[k + 1];
    }
    assert forall id: nat | id in r.groups[0] :: Grouped(r.groups, id);
  }

  lemma DispatchKeeps(r: Run, w: nat)
    requires Inv(r) && Next(r, Dispatch(w)).Some?
    ensures Inv(Next(r, Dispatch(w)).value)
  {
    hide CellOf, WorkerGood, Disjoint, Grouped, Settled, BookGood;
    var n := Next(r, Dispatch(w)).value;
    DispatchedGood(r);
    OwnedAfterDispatch(r, n, w);
    hide Owns, Owned;
    assert forall id: nat :: Owns(n.workers[w], id) <==> id in r.groups[0];
    forall v, u, id: nat | 0 <= v < u < |n.workers| && Owns(n.workers[v], id) ensures !Owns(n.workers[u], id) {
      if v == w {
        assert !Owned(r.workers, id);
        OwnsOwned(r.workers, u);
      } else if u == w {
        OwnsOwned(r.workers, v);
      }
    }
    forall v, id: nat | 0 <= v < |n.workers| && Owns(n.workers[v], id) ensures id in n.registered {}
    forall id | id in n.registered && !Owned(n.workers, id) && !Grouped(n.groups, id) ensures Rests(n, id) { assert Rests(r, id); }
  }

  lemma OwnedAfterDispatch(r: Run, n: Run, w: nat)
    requires w < |r.workers| && r.workers[w].Idle? && |r.groups| > 0
    requires n.workers == r.workers[w := Busy(r.groups[0], [], [], Received)]
    ensures forall id: nat :: Owns(n.workers[w], id) <==> id in r.groups[0]
    ensures forall id: nat :: Owned(n.workers, id) <==> Owned(r.workers, id) || id in r.groups[0]
  {
    forall id: nat ensures Owned(n.workers, id) <==> Owned(r.workers, id) || id in r.groups[0] {
      if Owned(r.workers, id) {
        var v :| 0 <= v < |r.workers| && Owns(r.workers[v], id);
        assert Owns(n.workers[v], id);
      }
      if Owned(n.workers, id) {
        var v :| 0 <= v < |n.workers| && Owns(n.workers[v], id);
        assert v != w ==> Owns(r.workers[v], id);
      }
      if id in r.groups[0] { assert Owns(n.workers[w], id); }
    }
  }

  lemma QuitKeeps(r: Run, w: nat)
    requires Inv(r) && Next(r, Quit(w)).Some?
    ensures Inv(Next(r, Quit(w)).value)
  {
    hide CellOf, Disjoint, Grouped, Settled, BookGood;
    var n := Next(r, Quit(w)).value;
    forall id: nat ensures Owned(n.workers, id) <==> Owned(r.workers, id) {
      if Owned(r.workers, id) {
        var v :| 0 <= v < |r.workers| && Owns(r.workers[v], id);
        assert Owns(n.workers[v], id);
      }
      if Owned(n.workers, id) {
        var v :| 0 <= v < |n.workers| && Owns(n.workers[v], id);
        assert Owns(r.workers[v], id);
      }
    }
    hide Owned, Owns, WorkerGood;
    forall v | 0 <= v < |n.workers| ensures WorkerGood(n.book, n.stopped, n.workers[v]) { QuitGood(n.book, n.stopped); }
    forall u, v, id: nat | 0 <= u < v < |n.workers| && Owns(n.workers[u], id) ensures !Owns(n.workers[v], id) { QuitOwns(id); }
    forall v, id: nat | 0 <= v < |n.workers| && Owns(n.workers[v], id) ensures id in n.registered { QuitOwns(id); }
    forall id | id in n.registered && !Owned(n.workers, id) && !Grouped(n.groups, id) ensures Rests(n, id) { assert Rests(r, id); }
  }

  lemma QuitGood(k: Book, stopped: bool)
    ensures WorkerGood(k, stopped, Exited)
  {
  }

  lemma QuitOwns(id: nat)
    ensures !Owns(Exited, id)
  {
  }

  // Closing the channel, the end of a wave, the check of stop, and watching for captures.
  lemma DispatcherKeeps(r: Run, step: Step)
    requires Inv(r) && Next(r, step).Some?
    requires step.Close? || step.WaveOver? || step.CheckStop? || step.Again? || step.Finish?
    ensures Inv(Next(r, step).value)
  {
    hide CellOf, Disjoint, Grouped, Settled, BookGood, Owns, WorkerGood, Owned;
    var n := Next(r, step).value;
    forall id | id in n.registered && !Owned(n.workers, id) && !Grouped(n.groups, id) ensures Rests(n, id) { assert Rests(r, id); }
  }

  lemma NoneOwned(r: Run)
    requires Inv(r) && !r.phase.Wave?
    ensures forall id: nat :: !Owned(r.workers, id)
  {
  }

  // Before the dispatcher looks for captures, none it already registered is pending.
  lemma NonePending(r: Run)
    requires Inv(r) && r.phase.Rereading?
    ensures forall id | id in PendingIds(r) :: id !in r.registered && CellOf(r.book, id) == FRESH
  {
    hide Owned, Owns, WorkersGood, Disjoint;
    NoneOwned(r);
    forall id | id in r.registered ensures id !in PendingIds(r) {
      assert !Grouped(r.groups, id);
      assert Rests(r, id);
    }
  }

  lemma {:induction false} FilesCount(groups: seq<seq<nat>>, ids: set<nat>)
    requires Partitions(groups, ids)
    ensures Files(groups) == |ids|
  {
    hide NoDuplicates;
    if |groups| == 0 {
      assert ids == {} by { assert forall id: nat :: !Grouped(groups, id); }
    } else {
      var first, rest := SetOf(groups[0]), groups[1..];
      DistinctSize(groups[0]);
      var others := ids - first;
      RestPartitions(groups, ids);
      FilesCount(rest, others);
      assert first <= ids by { assert forall id | id in groups[0] :: Grouped(groups, id); }
      assert ids == first + others && first !! others;
    }
  }

  lemma RestPartitions(groups: seq<seq<nat>>, ids: set<nat>)
    requires Partitions(groups, ids) && |groups| > 0
    ensures Partitions(groups[1..], ids - SetOf(groups[0]))
  {
    hide NoDuplicates;
    var rest := groups[1..];
    forall id: nat ensures id in ids - SetOf(groups[0]) <==> Grouped(rest, id) {
      if Grouped(rest, id) {
        var k :| 0 <= k < |rest| && id in rest[k];
        assert id in groups[k + 1];
      }
      if Grouped(groups, id) && id !in groups[0] {
        var k :| 0 <= k < |groups| && id in groups[k];
        assert id in rest[k - 1];
      }
    }
    forall k | 0 <= k < |rest| ensures rest[k] != [] && NoDuplicates(rest[k]) { assert rest[k] == groups[k + 1]; }
    forall j, k, id: nat | 0 <= j < k < |rest| ensures !(id in rest[j] && id in rest[k]) {
      assert rest[j] == groups[j + 1] && rest[k] == groups[k + 1];
    }
  }

  lemma RereadKeeps(r: Run, groups: seq<seq<nat>>)
    requires Inv(r) && Next(r, Reread(groups)).Some?
    ensures Inv(Next(r, Reread(groups)).value)
  {
    hide CellOf, Disjoint, Grouped, Settled, WorkerGood, PendingIds, Files;
    var n := Next(r, Reread(groups)).value;
    if |groups| == 0 {
      hide BookGood, Owns, Owned;
      forall id | id in n.registered && !Owned(n.workers, id) && !Grouped(n.groups, id) ensures Rests(n, id) { assert Rests(r, id); }
    } else {
      hide BookGood, Owns, Owned, PhaseGood;
      MorePending(r, groups);
    }
  }

  lemma MorePending(r: Run, groups: seq<seq<nat>>)
    requires Inv(r) && Next(r, Reread(groups)).Some? && |groups| > 0
    ensures Inv(Next(r, Reread(groups)).value)
  {
    hide CellOf, Disjoint, Grouped, Settled, WorkerGood, PendingIds, Files, Owns, Owned, BookGood;
    var n, pending := Next(r, Reread(groups)).value, PendingIds(r);
    NonePending(r);
    FilesCount(groups, pending);
    TwoParts(r.registered, pending);
    forall w | 0 <= w < |n.workers| ensures WorkerGood(n.book, n.stopped, n.workers[w]) { IdleGood(n.book, n.stopped); }
    IdleOwnNothing(n.workers);
    RegisteredMore(r);
    forall id | id in n.registered && !Owned(n.workers, id) && !Grouped(n.groups, id) ensures Rests(n, id) {
      assert id !in pending;
      NothingGrouped(id);
      NoneOwned(r);
      assert Rests(r, id);
    }
  }

  lemma IdleOwnNothing(workers: seq<Worker>)
    requires forall w | 0 <= w < |workers| :: workers[w].Idle?
    ensures forall id: nat :: !Owned(workers, id)
    ensures forall w, id: nat | 0 <= w < |workers| :: !Owns(workers[w], id)
  {
  }

  lemma RegisteredMore(r: Run)
    requires Inv(r)
    ensures BookGood(r.book, r.registered + PendingIds(r))
  {
  }

  lemma NothingGrouped(id: nat)
    ensures !Grouped([], id)
  {
  }

  lemma IdleGood(k: Book, stopped: bool)
    ensures WorkerGood(k, stopped, Idle)
  {
  }

  lemma NextKeeps(r: Run, step: Step)
    requires Inv(r) && Next(r, step).Some?
    ensures Inv(Next(r, step).value)
  {
    hide Inv, Worked, PendingIds;
    match step
    case Arrive(mine) => ArriveKeeps(r, mine);
    case Stop => StopKeeps(r);
    case Dispatch(w) => DispatchKeeps(r, w);
    case Quit(w) => QuitKeeps(r, w);
    case Turn(w, o) => TurnKeeps(r, w, o);
    case Reread(groups) => RereadKeeps(r, groups);
    case _ => DispatcherKeeps(r, step);
  }

  lemma StartGood(r: Run)
    requires Started(r)
    ensures Inv(r)
  {
    hide Disjoint, Grouped, NoDuplicates;
    FilesCount(r.groups, PendingIds(r));
    forall id: nat ensures !Owned(r.workers, id) {}
  }

  lemma {:induction false} ReachesKeeps(r: Run, steps: seq<Step>, end: Run)
    requires Inv(r) && Reaches(r, steps, end)
    ensures Inv(end)
    decreases |steps|
  {
    hide Inv, Next;
    if |steps| > 0 {
      NextKeeps(r, steps[0]);
      ReachesKeeps(Next(r, steps[0]).value, steps[1..], end);
    }
  }

  // ---- what a run leaves ----

  function Among(r: Run, s: Status): set<nat> {
    set id | id in r.registered && id < |r.book.status| && r.book.status[id] == s
  }

  /** However workers, dispatcher, Stop and arriving captures interleave: when a run returns, none of its
      events is running, the counters are exactly the numbers of its events left complete and in error, the
      others are pending, and unless it was stopped before it caught up there are no others. */
  lemma RunOutcome(start: Run, steps: seq<Step>, end: Run)
    requires Started(start) && Reaches(start, steps, end) && end.phase.Returned?
    ensures Among(end, Running) == {}
    ensures end.book.completed == |Among(end, Complete)| && end.book.failed == |Among(end, Error)|
    ensures end.total == |end.registered| && end.registered == Among(end, Complete) + Among(end, Error) + Among(end, Pending)
    ensures !end.stopped || end.phase.idle ==> end.book.completed + end.book.failed == end.total
  {
    hide Reaches, Started, Among, Inv;
    StartGood(start);
    ReachesKeeps(start, steps, end);
    FinalStatuses(end);
    FinalSets(end);
    TwoParts(Among(end, Complete), Among(end, Error));
  }

  // A pending capture that the filter of the job selects.
  predicate Waits(r: Run, id: nat) { id < |r.book.status| && id < |r.mine| && r.mine[id] && r.book.status[id] == Pending }

  /** Which captures a wave is for: at the start, and at each reading of the store, exactly those that wait, and they
      are what total counts besides those of earlier waves; and the run has caught up exactly when none waits. */
  lemma TakenUp(r: Run, groups: seq<seq<nat>>)
    ensures Started(r) ==> forall id: nat :: (id in r.registered <==> Waits(r, id)) && (Grouped(r.groups, id) <==> Waits(r, id))
    ensures Next(r, Reread(groups)).Some? ==>
              var n := Next(r, Reread(groups)).value;
              && (n.phase.Watching? <==> forall id: nat :: !Waits(r, id))
              && (n.phase.Watching? ==> n.registered == r.registered)
              && (!n.phase.Watching? ==>
                    forall id: nat :: (id in n.registered <==> id in r.registered || Waits(r, id)) && (Grouped(n.groups, id) <==> Waits(r, id)))
  {
    if Next(r, Reread(groups)).Some? {
      if |groups| == 0 {
        forall id: nat ensures !Waits(r, id) { assert !Grouped(groups, id); }
      } else {
        assert groups[0] != [] && groups[0][0] in groups[0];
        assert Grouped(groups, groups[0][0]);
        assert Waits(r, groups[0][0]);
      }
    }
  }

  lemma TwoParts(a: set<nat>, b: set<nat>)
    requires a !! b
    ensures |a + b| == |a| + |b|
  {
  }

  lemma FinalSets(end: Run)
    requires Inv(end) && end.phase.Returned?
    ensures Among(end, Complete) == end.book.counted && Among(end, Error) == end.book.failures && Among(end, Running) == {}
    ensures Among(end, Complete) !! Among(end, Error)
    ensures end.registered == Among(end, Complete) + Among(end, Error) + Among(end, Pending)
    ensures !end.stopped || end.phase.idle ==> end.registered == Among(end, Complete) + Among(end, Error)
  {
    hide Inv, Among;
    FinalStatuses(end);
    AmongIs(end, Complete, end.book.counted);
    AmongIs(end, Error, end.book.failures);
    AmongIs(end, Running, {});
    var rest := end.registered - end.book.counted - end.book.failures;
    AmongIs(end, Pending, rest);
    assert end.registered == end.book.counted + end.book.failures + rest;
    assert !end.stopped || end.phase.idle ==> rest == {};
  }

  lemma AmongIs(r: Run, s: Status, ids: set<nat>)
    requires ids <= r.registered
    requires forall id | id in r.registered :: id < |r.book.status| && (id in ids <==> r.book.status[id] == s)
    ensures Among(r, s) == ids
  {
  }

  lemma FinalStatuses(end: Run)
    requires Inv(end) && end.phase.Returned?
    ensures forall id | id in end.registered ::
              && id < |end.book.status| && end.book.status[id] != Running
              && (id in end.book.counted <==> end.book.status[id] == Complete)
              && (id in end.book.failures <==> end.book.status[id] == Error)
              && (!end.stopped || end.phase.idle ==> end.book.status[id] != Pending)
    ensures end.book.counted <= end.registered && end.book.failures <= end.registered
    ensures end.book.completed == |end.book.counted| && end.book.failed == |end.book.failures| && end.total == |end.registered|
  {
    FinalCells(end);
    forall id | id in end.registered
      ensures id < |end.book.status| && CellOf(end.book, id).status == end.book.status[id] != Running
           && (id in end.book.counted <==> end.book.status[id] == Complete)
           && (id in end.book.failures <==> end.book.status[id] == Error)
           && (!end.stopped || end.phase.idle ==> end.book.status[id] != Pending)
    {
      assert Settled(CellOf(end.book, id));
    }
  }

  lemma FinalCells(end: Run)
    requires Inv(end) && end.phase.Returned?
    ensures forall id | id in end.registered :: Settled(CellOf(end.book, id))
    ensures !end.stopped || end.phase.idle ==> forall id | id in end.registered :: CellOf(end.book, id) != FRESH
  {
    hide CellOf, Settled, Owned, Disjoint;
    NoneOwned(end);
    FreshSettled();
    forall id | id in end.registered
      ensures Settled(CellOf(end.book, id)) && (!end.stopped || end.phase.idle ==> CellOf(end.book, id) != FRESH)
    {
      assert Grouped(end.groups, id) || Rests(end, id);
    }
  }

  lemma FreshSettled()
    ensures Settled(FRESH)
  {
  }

  /** A group cut short: whatever step comes next, its worker goes on putting the same successful events
      back, and when it is done every one of them is pending and no longer counted. */
  lemma CutShort(r: Run, step: Step, w: nat)
    requires Inv(r) && w < |r.workers| && r.workers[w].Busy? && r.workers[w].at.Unwinding? && Next(r, step).Some?
    ensures var b, n := r.workers[w], Next(r, step).value;
            && w < |n.workers|
            && var c := n.workers[w];
            if c.Busy? then c.at.Unwinding? && c.todo == [] && (forall id: nat :: Owns(c, id) <==> Owns(b, id))
            else
              && c.Idle? && b.held == [] && n.book.completed == r.book.completed - |b.returned|
              && forall id | id in b.returned :: CellOf(n.book, id) == FRESH
  {
    hide Disjoint, RestGood, GroupsGood, BookGood, Partitions;
    var b := r.workers[w];
    assert WorkerGood(r.book, r.stopped, b);
    if step.Turn? && step.w == w {
      hide WorkersGood;
      Unwind(r.book, r.stopped, b, step.outcome);
    } else if step.Turn? {
      hide Moved, Post, WriteOf, WorkerGood;
    }
  }

  lemma Unwind(k: Book, stopped: bool, b: Worker, o: Outcome)
    requires b.Busy? && b.at.Unwinding? && WorkerGood(k, stopped, b)
    ensures var c, n := Moved(b, stopped, o).value, Post(k, WriteOf(b, o));
            && b.todo == []
            && if |b.held| > 0 then
                 c.Busy? && c.at.Unwinding? && c.todo == [] && (forall id: nat :: Owns(c, id) <==> Owns(b, id))
               else
                 && c.Idle? && n.completed == k.completed - |b.returned|
                 && forall id | id in b.returned :: CellOf(n, id) == FRESH
  {
    hide NoDuplicates;
    FirstOfDistinct(b.held);
    if |b.held| > 0 { LastOfDistinct(b.returned, b.held[0]); }
    assert forall id | id in b.returned :: CellOf(k, id) == RETURNED;
  }

  // ---- a group cut short, to the end of the run ----

  // Stopped inside a wave: from there the dispatcher can only finish the wave and return.
  predicate WindingUp(r: Run) { r.stopped && (r.phase.Wave? || r.phase.Waited? || r.phase == Returned(false)) }

  // A registered event that nobody has in hand any more.
  ghost predicate LeftPending(r: Run, id: nat) {
    id in r.registered && CellOf(r.book, id) == FRESH && !Owned(r.workers, id) && !Grouped(r.groups, id)
  }

  lemma WindingUpStays(r: Run, step: Step)
    requires WindingUp(r) && Next(r, step).Some?
    ensures WindingUp(Next(r, step).value)
  {
    hide Moved, Post, WriteOf, Partitions;
  }

  lemma LeftPendingStays(r: Run, step: Step, id: nat)
    requires Inv(r) && WindingUp(r) && Next(r, step).Some? && LeftPending(r, id)
    ensures LeftPending(Next(r, step).value, id)
  {
    hide Moved, Post, WriteOf, Partitions, WorkerGood, Disjoint;
    var n := Next(r, step).value;
    match step
    case Turn(w, o) =>
      WorkedTouches(r, w, o);
      OwnedOnlyShrinks(r, n, w);
      OwnsOwned(r.workers, w);
    case Dispatch(w) =>
      DispatchedGood(r);
      OwnedAfterDispatch(r, n, w);
    case Arrive(_) => SameCellsOnArrival(r.book);
    case Quit(w) =>
      forall v | 0 <= v < |n.workers| ensures !Owns(n.workers[v], id) { assert v != w ==> !Owns(r.workers[v], id); }
    case _ =>
  }

  // Worker w still has exactly these events to put back, or all of them are pending for good.
  ghost predicate PuttingBack(r: Run, w: nat, ids: set<nat>) {
    || (w < |r.workers| && r.workers[w].Busy? && r.workers[w].at.Unwinding? && forall id: nat :: Owns(r.workers[w], id) <==> id in ids)
    || (forall id | id in ids :: LeftPending(r, id))
  }

  lemma PuttingBackGoesOn(r: Run, step: Step, w: nat, ids: set<nat>)
    requires Inv(r) && WindingUp(r) && Next(r, step).Some? && PuttingBack(r, w, ids)
    ensures PuttingBack(Next(r, step).value, w, ids)
  {
    var n := Next(r, step).value;
    if forall id | id in ids :: LeftPending(r, id) {
      hide LeftPending, Next;
      forall id | id in ids ensures LeftPending(n, id) { LeftPendingStays(r, step, id); }
    } else {
      CutShort(r, step, w);
      if n.workers[w].Idle? {
        hide Next;
        forall id | id in ids ensures LeftPending(n, id) { LetGo(r, step, w, id); }
      }
    }
  }

  // The step with which a worker lets go of a group leaves its events to nobody.
  lemma LetGo(r: Run, step: Step, w: nat, id: nat)
    requires Inv(r) && Next(r, step).Some? && w < |r.workers| && r.workers[w].Busy? && r.workers[w].at.Unwinding?
    requires Owns(r.workers[w], id) && w < |Next(r, step).value.workers| && Next(r, step).value.workers[w].Idle?
    ensures LeftPending(Next(r, step).value, id)
  {
    hide Disjoint, Partitions, NoDuplicates, BookGood, RestGood, PhaseGood;
    var n := Next(r, step).value;
    CutShort(r, step, w);
    OwnsOwned(r.workers, w);
    BusyInWave(r, w);
    assert step.Turn? && step.w == w;
    hide Moved, Post, WriteOf, WorkerGood, Next;
    forall v | 0 <= v < |n.workers| ensures !Owns(n.workers[v], id) {
      if v != w { OneOwner(r, w, v); }
    }
  }

  lemma BusyInWave(r: Run, w: nat)
    requires Inv(r) && w < |r.workers| && r.workers[w].Busy?
    ensures r.phase.Wave?
  {
    hide WorkersGood, GroupsGood, RestGood, BookGood;
  }

  lemma {:induction false} PuttingBackToTheEnd(r: Run, steps: seq<Step>, end: Run, w: nat, ids: set<nat>)
    requires Inv(r) && WindingUp(r) && Reaches(r, steps, end) && PuttingBack(r, w, ids)
    ensures PuttingBack(end, w, ids) && Inv(end)
    decreases |steps|
  {
    hide Inv, Next, PuttingBack, WindingUp;
    if |steps| > 0 {
      NextKeeps(r, steps[0]);
      WindingUpStays(r, steps[0]);
      PuttingBackGoesOn(r, steps[0], w, ids);
      PuttingBackToTheEnd(Next(r, steps[0]).value, steps[1..], end, w, ids);
    }
  }

  /** A group cut short: over every run from there, until its worker is done with it the worker has all of its
      successful events to put back, and from then on, and when the run returns, every one of them is pending and
      not counted. */
  lemma CutShortRun(r: Run, steps: seq<Step>, end: Run, w: nat)
    requires Inv(r) && Reaches(r, steps, end)
    requires w < |r.workers| && r.workers[w].Busy? && r.workers[w].at.Unwinding?
    ensures var b := r.workers[w];
            || (w < |end.workers| && end.workers[w].Busy? && end.workers[w].at.Unwinding? && forall id: nat :: Owns(end.workers[w], id) <==> Owns(b, id))
            || (forall id: nat | Owns(b, id) :: CellOf(end.book, id) == FRESH)
    ensures end.phase.Returned? ==> forall id: nat | Owns(r.workers[w], id) :: CellOf(end.book, id) == FRESH
  {
    hide Reaches, Next;
    BusyInWave(r, w);
    var b := r.workers[w];
    assert r.stopped by { assert WorkerGood(r.book, r.stopped, b); }
    var ids := SetOf(b.todo) + SetOf(b.held) + SetOf(b.returned);
    assert forall id: nat :: Owns(b, id) <==> id in ids;
    PuttingBackToTheEnd(r, steps, end, w, ids);
    if end.phase.Returned? { hide Inv; NotBusyAfter(end); }
  }

  lemma NotBusyAfter(end: Run)
    requires Inv(end) && end.phase.Returned?
    ensures forall w | 0 <= w < |end.workers| :: end.workers[w].Exited?
  {
    hide WorkersGood, GroupsGood, RestGood, BookGood;
  }

  // ---- every wave ends ----

  // How many steps a worker has left in a wave.
  function Weight(b: Worker): nat {
    match b
    case Exited => 0
    case Idle => 1
    case Busy(todo, held, _, at) =>
      match at
      case Unwinding => |held| + 2
      case Finalizing(_) => 2 * |held| + 2
      case LateErrorCounting(_, _) => 2 * |held| + 3
      case Combined(_) => 2 * |held| + 3
      case CancelMarking(_) => 2 * |held| + 3
      case Combining => 2 * |held| + 4
      case Loop => 7 * |todo| + 2 * |held| + 5
      case Received => 7 * |todo| + 2 * |held| + 6
      case ErrorCounting(_) => 7 * |todo| + 2 * |held| + 6
      case ErrorMarking(_) => 7 * |todo| + 2 * |held| + 7
      case Counting(_) => 7 * |todo| + 2 * |held| + 8
      case Analyzing(_) => 7 * |todo| + 2 * |held| + 9
      case Marking(_) => 7 * |todo| + 2 * |held| + 10
  }

  function Weights(workers: seq<Worker>): nat {
    if |workers| == 0 then 0 else Weight(workers[0]) + Weights(workers[1..])
  }

  // What is left of groups nobody has received yet.
  function GroupWeights(groups: seq<seq<nat>>): nat {
    if |groups| == 0 then 0 else 7 * |groups[0]| + 6 + GroupWeights(groups[1..])
  }

  /** The steps left before a wave and the check for Stop behind it are over. */
  function StepsLeft(r: Run): nat {
    (if r.phase.Wave? then 2 else if r.phase.Waited? then 1 else 0) + (if r.closed then 0 else 1)
    + GroupWeights(r.groups) + Weights(r.workers)
  }

  lemma {:induction false} WeightsUpdate(workers: seq<Worker>, w: nat, b: Worker)
    requires w < |workers|
    ensures Weights(workers[w := b]) == Weights(workers) - Weight(workers[w]) + Weight(b)
  {
    hide Weight;
    if w == 0 {
      assert workers[w := b][1..] == workers[1..];
    } else {
      assert workers[w := b][1..] == workers[1..][w - 1 := b];
      WeightsUpdate(workers[1..], w - 1, b);
    }
  }

  lemma MovedLighter(b: Worker, stopped: bool, o: Outcome)
    requires b.Busy? && Moved(b, stopped, o).Some?
    ensures Weight(Moved(b, stopped, o).value) < Weight(b)
  {
  }

  // Everything but what happens outside: captures arriving, and Stop.
  predicate Inside(step: Step) { !step.Arrive? && !step.Stop? }

  function CountInside(steps: seq<Step>): nat {
    if |steps| == 0 then 0 else (if Inside(steps[0]) then 1 else 0) + CountInside(steps[1..])
  }

  // A wave under way, or over and not followed by another.
  predicate InWave(r: Run) { r.phase.Wave? || r.phase.Waited? || r.phase.Rereading? || r.phase == Returned(false) }

  lemma StepTakesOne(r: Run, step: Step)
    requires InWave(r) && Next(r, step).Some? && !step.Reread?
    ensures StepsLeft(Next(r, step).value) <= StepsLeft(r) - (if Inside(step) then 1 else 0)
  {
    hide Moved, Post, WriteOf, Partitions, Weight, Weights;
    match step
    case Turn(w, o) =>
      MovedLighter(r.workers[w], r.stopped, o);
      WeightsUpdate(r.workers, w, Moved(r.workers[w], r.stopped, o).value);
    case Dispatch(w) =>
      WeightsUpdate(r.workers, w, Busy(r.groups[0], [], [], Received));
      WeightOf(r.groups[0]);
    case Quit(w) =>
      WeightsUpdate(r.workers, w, Exited);
      WeightOf([]);
    case _ =>
  }

  lemma WeightOf(group: seq<nat>)
    ensures Weight(Idle) == 1 && Weight(Exited) == 0 && Weight(Busy(group, [], [], Received)) == 7 * |group| + 6
  {
  }

  lemma InWaveStays(r: Run, step: Step)
    requires InWave(r) && Next(r, step).Some? && !step.Reread?
    ensures InWave(Next(r, step).value)
  {
    hide Moved, Post, WriteOf, Partitions;
  }

  /** A wave ends by itself, with or without Stop: until the store is read again, workers and dispatcher take at
      most StepsLeft steps, whatever their outcomes, their order and what arrives meanwhile. */
  lemma {:induction false} WaveTerminates(r: Run, steps: seq<Step>, end: Run)
    requires InWave(r) && Reaches(r, steps, end) && forall step | step in steps :: !step.Reread?
    ensures CountInside(steps) <= StepsLeft(r) - StepsLeft(end) && InWave(end)
    decreases |steps|
  {
    hide Next, StepsLeft, Inside;
    if |steps| > 0 {
      InWaveStays(r, steps[0]);
      StepTakesOne(r, steps[0]);
      WaveTerminates(Next(r, steps[0]).value, steps[1..], end);
    }
  }

  // ---- no deadlock ----

  // Workers leave a wave only when its channel is closed or the run is stopped.
  ghost predicate Manned(r: Run) {
    && |r.workers| > 0 && |r.mine| == |r.book.status|
    && (r.phase.Wave? && !r.closed && !r.stopped ==> forall w | 0 <= w < |r.workers| :: !r.workers[w].Exited?)
  }

  lemma StaysManned(r: Run, step: Step)
    requires Manned(r) && Next(r, step).Some?
    ensures Manned(Next(r, step).value)
  {
    hide WriteOf, Partitions;
  }

  lemma {:induction false} ReachesManned(r: Run, steps: seq<Step>, end: Run)
    requires Manned(r) && Reaches(r, steps, end)
    ensures Manned(end)
    decreases |steps|
  {
    hide Manned, Next;
    if |steps| > 0 {
      StaysManned(r, steps[0]);
      ReachesManned(Next(r, steps[0]).value, steps[1..], end);
    }
  }

  // The events of a set of small numbers, in order.
  function Listed(ids: set<nat>, n: nat): seq<nat> {
    if n == 0 then [] else Listed(ids, n - 1) + if n - 1 in ids then [n - 1] else []
  }

  lemma {:induction false} ListedAll(ids: set<nat>, n: nat)
    ensures NoDuplicates(Listed(ids, n)) && forall id: nat :: id in Listed(ids, n) <==> id in ids && id < n
  {
    if n > 0 {
      ListedAll(ids, n - 1);
      LastOfDistinct(Listed(ids, n - 1), n - 1);
    }
  }

  // The pending events can always be grouped.
  lemma SomeGrouping(r: Run) returns (groups: seq<seq<nat>>)
    requires |r.mine| == |r.book.status|
    ensures Partitions(groups, PendingIds(r))
  {
    hide NoDuplicates;
    var ids := Listed(PendingIds(r), |r.mine|);
    ListedAll(PendingIds(r), |r.mine|);
    groups := if ids == [] then [] else [ids];
    if ids != [] { assert groups[0] == ids; }
    forall id: nat ensures id in PendingIds(r) <==> Grouped(groups, id) {}
  }

  lemma SomeMove(b: Worker, stopped: bool)
    requires b.Busy?
    ensures Moved(b, stopped, Ok).Some?
  {
  }

  lemma SomeStep(r: Run) returns (step: Step)
    requires Manned(r) && !r.phase.Returned?
    ensures Inside(step) && Next(r, step).Some?
  {
    hide Partitions, PendingIds;
    if r.phase.Waited? { return CheckStop; }
    if r.phase.Watching? { return Finish; }
    if r.phase.Rereading? {
      var groups := SomeGrouping(r);
      return Reread(groups);
    }
    if w :| 0 <= w < |r.workers| && r.workers[w].Busy? {
      SomeMove(r.workers[w], r.stopped);
      return Turn(w, Ok);
    }
    if !r.closed && (|r.groups| == 0 || r.stopped) { return Close; }
    if w :| 0 <= w < |r.workers| && r.workers[w].Idle? { return if r.closed then Quit(w) else Dispatch(w); }
    assert r.workers[0].Exited?;
    step := WaveOver;
  }

  /** No run deadlocks: wherever it has got to, stopped or not, unless it has returned a worker or the dispatcher
      has a step to take. */
  lemma NeverStuck(start: Run, steps: seq<Step>, end: Run) returns (step: Step)
    requires Started(start) && Reaches(start, steps, end) && !end.phase.Returned?
    ensures Inside(step) && Next(end, step).Some?
  {
    hide Reaches, Next, Partitions;
    ReachesManned(start, steps, end);
    step := SomeStep(end);
  }

  /** After a Stop inside a wave the run returns: it takes at most StepsLeft steps of workers and dispatcher,
      whatever arrives meanwhile. */
  lemma {:induction false} StopTerminates(r: Run, steps: seq<Step>, end: Run)
    requires WindingUp(r) && Reaches(r, steps, end)
    ensures CountInside(steps) <= StepsLeft(r) - StepsLeft(end) && WindingUp(end)
    decreases |steps|
  {
    hide Next, StepsLeft, Inside;
    if |steps| > 0 {
      WindingUpStays(r, steps[0]);
      NoReread(r, steps[0]);
      StepTakesOne(r, steps[0]);
      StopTerminates(Next(r, steps[0]).value, steps[1..], end);
    }
  }

  lemma NoReread(r: Run, step: Step)
    requires WindingUp(r) && Next(r, step).Some?
    ensures InWave(r) && !step.Reread?
  {
  }
}
