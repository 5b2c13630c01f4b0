/** The push-to-talk life cycle of server/internal/app/radio_relay.go: any number of concurrent Run calls,
    whose driver calls, key delay and audio callback can fail or be cancelled. */
module Relay {
  import opened Wrappers

  /** One SetPTT: who asked for what, whether the driver reported success, and whether the line did as asked;
      if it did not, it stayed as it was. */
  datatype Call = Call(caller: nat, key: bool, ok: bool, moved: bool)

  predicate KeyUp(c: Call) { c.key && c.ok }

  predicate Release(c: Call) { !c.key }

  // A driver that reports success has done what it was asked.
  predicate Honest(c: Call) { c.ok ==> c.moved }

  function After(c: Call, line: bool): bool { if c.moved then c.key else line }

  // ---- one call ----

  datatype Delay = Elapsed | DelayCancelled

  datatype Audio = Sent | AudioFailed | LimitReached

  datatype Result = Done | AlreadyActive | KeyFailed | Cancelled | AudioError | Limit

  class RadioRelay {
    const keyDelay: bool
    var active: bool
    var line: bool
    var log: seq<Call>

    constructor (keyDelay: bool)
      ensures this.keyDelay == keyDelay && !active && !line && log == []
    {
      this.keyDelay, active, line, log := keyDelay, false, false, [];
    }

    method SetPTT(call: Call)
      requires Honest(call)
      modifies this`line, this`log
      ensures line == After(call, old(line)) && log == old(log) + [call]
    {
      line, log := After(call, line), log + [call];
    }

    /** Run, alone: whatever fails, a key-up that succeeded is followed by one release, and the relay is
        free again; the result is success only if everything was. */
    method Run(caller: nat, key: Call, delay: Delay, audio: Audio, release: Call) returns (result: Result)
      requires key.caller == caller && key.key && Honest(key)
      requires release.caller == caller && !release.key && Honest(release)
      modifies this
      ensures active == old(active)
      ensures log == if old(active) then old(log) else if key.ok then old(log) + [key, release] else old(log) + [key]
      ensures line == if old(active) then old(line) else if key.ok then !release.moved else After(key, old(line))
      ensures result.Done? <==> !old(active) && key.ok && (keyDelay ==> delay.Elapsed?) && audio.Sent?
      ensures result.AlreadyActive? <==> old(active)
      ensures result.KeyFailed? <==> !old(active) && !key.ok
      ensures result.Cancelled? <==> !old(active) && key.ok && keyDelay && delay.DelayCancelled?
      ensures result.AudioError? <==> !old(active) && key.ok && (keyDelay ==> delay.Elapsed?) && audio.AudioFailed?
      ensures result.Limit? <==> !old(active) && key.ok && (keyDelay ==> delay.Elapsed?) && audio.LimitReached?
    {
      if active { return AlreadyActive; }
      active := true;
      SetPTT(key);
      if !key.ok {
        active := false;
        return KeyFailed;
      }
      if keyDelay && delay.DelayCancelled? {
        result := Cancelled;
      } else {
        result := match audio case Sent => Done case AudioFailed => AudioError case LimitReached => Limit;
      }
      SetPTT(release);
      active := false;
    }
  }

  // ---- any number of calls ----

  datatype Stage = Outside | Admitted | Delaying | Sending | Releasing | Clearing

  // holder: whose call set active.
  datatype Shared = Shared(active: bool, holder: Option<nat>, line: bool, stages: seq<Stage>, log: seq<Call>, keyDelay: bool)

  datatype Step =
    | Enter(p: nat)                        // the locked check of active
    | Key(p: nat, ok: bool, moved: bool)
    | Wait(p: nat, cancelled: bool)
    | Audio(p: nat)                        // the callback returns, whatever its result
    | LetGo(p: nat, ok: bool, moved: bool) // the deferred release
    | Clear(p: nat)                        // the deferred reset of active, and the return

  function At(s: Shared, p: nat, stage: Stage): Shared
    requires p < |s.stages|
  {
    s.(stages := s.stages[p := stage])
  }

  function Drive(s: Shared, c: Call): Shared { s.(line := After(c, s.line), log := s.log + [c]) }

  function Next(s: Shared, step: Step): Option<Shared> {
    if step.p >= |s.stages| then None
    else
      var stage := s.stages[step.p];
      match step
      case Enter(p) =>
        if !stage.Outside? then None else if s.active then Some(s) else Some(At(s, p, Admitted).(active := true, holder := Some(p)))
      case Key(p, ok, moved) =>
        if !stage.Admitted? || !Honest(Call(p, true, ok, moved)) then None
        else Some(At(Drive(s, Call(p, true, ok, moved)), p, if !ok then Clearing else if s.keyDelay then Delaying else Sending))
      case Wait(p, cancelled) => if stage.Delaying? then Some(At(s, p, if cancelled then Releasing else Sending)) else None
      case Audio(p) => if stage.Sending? then Some(At(s, p, Releasing)) else None
      case LetGo(p, ok, moved) =>
        if stage.Releasing? && Honest(Call(p, false, ok, moved)) then Some(At(Drive(s, Call(p, false, ok, moved)), p, Clearing)) else None
      case Clear(p) => if stage.Clearing? then Some(At(s, p, Outside).(active := false, holder := None)) else None
  }

  ghost predicate Start(s: Shared) {
    !s.active && s.holder == None && !s.line && s.log == [] && forall p | 0 <= p < |s.stages| :: s.stages[p].Outside?
  }

  ghost predicate Reaches(s: Shared, steps: seq<Step>, end: Shared)
    decreases |steps|
  {
    if |steps| == 0 then end == s
    else var next := Next(s, steps[0]); next.Some? && Reaches(next.value, steps[1..], end)
  }

  /** Every release answers the key-up just before it, by the same call; every key-up that is not the last
      driver call is answered next. */
  ghost predicate Paired(log: seq<Call>) {
    && (forall k | 0 <= k < |log| && Release(log[k]) :: k > 0 && KeyUp(log[k - 1]) && log[k - 1].caller == log[k].caller)
    && (forall k | 0 <= k < |log| - 1 && KeyUp(log[k]) :: Release(log[k + 1]))
  }

  function LineAfter(log: seq<Call>): bool {
    if |log| == 0 then false else After(log[|log| - 1], LineAfter(log[..|log| - 1]))
  }

  // Call j raised the line, and every call after it failed and left the line as it was.
  ghost predicate LeftUp(log: seq<Call>, j: int) {
    0 <= j < |log| && log[j].key && log[j].moved && forall k | j < k < |log| :: !log[k].ok && !log[k].moved
  }

  lemma {:induction false} UpExactly(log: seq<Call>)
    requires forall k | 0 <= k < |log| :: Honest(log[k])
    ensures LineAfter(log) <==> exists j :: LeftUp(log, j)
  {
    if |log| > 0 {
      var init, last := log[..|log| - 1], |log| - 1;
      assert forall k | 0 <= k < last :: init[k] == log[k];
      UpExactly(init);
      if LineAfter(log) {
        if log[last].moved {
          assert LeftUp(log, last);
        } else {
          var j :| LeftUp(init, j);
          assert LeftUp(log, j);
        }
      }
      if j :| LeftUp(log, j) {
        if j < last { assert LeftUp(init, j); }
      }
    }
  }

  // The key-up still to be answered.
  function Unanswered(log: seq<Call>): Option<nat> {
    if |log| > 0 && KeyUp(log[|log| - 1]) then Some(log[|log| - 1].caller) else None
  }

  predicate Keyed(stage: Stage) { stage.Delaying? || stage.Sending? || stage.Releasing? }

  ghost predicate Inv(s: Shared) {
    && (s.active <==> s.holder.Some?)
    && (s.holder.Some? ==> s.holder.value < |s.stages|)
    && (forall p: nat | p < |s.stages| :: !s.stages[p].Outside? <==> s.holder == Some(p))
    && Paired(s.log) && (forall k | 0 <= k < |s.log| :: Honest(s.log[k]))
    && s.line == LineAfter(s.log)
    && Unanswered(s.log) == (if s.holder.Some? && Keyed(s.stages[s.holder.value]) then s.holder else None)
  }

  lemma PairedMore(log: seq<Call>, c: Call)
    requires Paired(log)
    requires if Release(c) then Unanswered(log) == Some(c.caller) else Unanswered(log) == None
    ensures Paired(log + [c]) && Unanswered(log + [c]) == if KeyUp(c) then Some(c.caller) else None
  {
    var n := log + [c];
    forall k | 0 <= k < |n| && Release(n[k]) ensures k > 0 && KeyUp(n[k - 1]) && n[k - 1].caller == n[k].caller {
      assert k < |log| ==> n[k] == log[k];
    }
    forall k | 0 <= k < |n| - 1 && KeyUp(n[k]) ensures Release(n[k + 1]) {
      assert k < |log| - 1 ==> KeyUp(log[k]) && Release(log[k + 1]);
    }
  }

  lemma LogGrows(log: seq<Call>, c: Call)
    requires Paired(log)
    requires if Release(c) then Unanswered(log) == Some(c.caller) else Unanswered(log) == None
    ensures Paired(log + [c]) && Unanswered(log + [c]) == if KeyUp(c) then Some(c.caller) else None
    ensures LineAfter(log + [c]) == After(c, LineAfter(log))
  {
    PairedMore(log, c);
    assert (log + [c])[..|log|] == log;
  }

  lemma NextKeeps(s: Shared, step: Step)
    requires Inv(s) && Next(s, step).Some?
    ensures Inv(Next(s, step).value)
  {
    hide Paired, Unanswered, Honest, LineAfter, After;
    var p := step.p;
    match step
    case Key(_, ok, moved) => LogGrows(s.log, Call(p, true, ok, moved));
    case LetGo(_, ok, moved) => LogGrows(s.log, Call(p, false, ok, moved));
    case _ =>
  }

  lemma {:induction false} ReachesKeeps(s: Shared, steps: seq<Step>, end: Shared)
    requires Inv(s) && Reaches(s, steps, end)
    ensures Inv(end)
    decreases |steps|
  {
    hide Inv, Next;
    if |steps| > 0 {
      NextKeeps(s, steps[0]);
      ReachesKeeps(Next(s, steps[0]).value, steps[1..], end);
    }
  }

  /** For every interleaving: at most one call is past the check, driver calls pair up, a call that has
      returned owes no release, and the line of an idle relay is up exactly when some call raised it and the driver has
      failed at everything since: at the release of a key-up that succeeded, or after a key-up that
      reported failure, for which there is no release. */
  lemma RelaySafety(s: Shared, steps: seq<Step>, end: Shared)
    requires Start(s) && Reaches(s, steps, end)
    ensures forall p, q | 0 <= p < q < |end.stages| :: end.stages[p].Outside? || end.stages[q].Outside?
    ensures Paired(end.log)
    ensures forall p | 0 <= p < |end.stages| && end.stages[p].Outside? :: Unanswered(end.log) != Some(p)
    ensures end.line <==> exists j :: LeftUp(end.log, j)
    ensures !end.active ==> forall j | LeftUp(end.log, j) ::
              end.log[j].ok ==> j + 1 < |end.log| && Release(end.log[j + 1]) && !end.log[j + 1].ok
    ensures !end.active && end.line ==> !end.log[|end.log| - 1].ok
  {
    hide Reaches, Next;
    ReachesKeeps(s, steps, end);
    UpExactly(end.log);
    if !end.active {
      assert Unanswered(end.log) == None;
      forall j | LeftUp(end.log, j) && end.log[j].ok ensures j + 1 < |end.log| && Release(end.log[j + 1]) && !end.log[j + 1].ok {
        assert KeyUp(end.log[j]);
      }
    }
  }

  // The audio ends, the driver fails at the release, and the call returns.
  lemma FailingRelease(s: Shared, p: nat) returns (steps: seq<Step>, end: Shared)
    requires p < |s.stages| && s.stages[p].Sending?
    ensures Reaches(s, steps, end) && !end.active && end.line == s.line && |end.stages| == |s.stages| && end.stages[p].Outside?
    ensures end.log == s.log + [Call(p, false, false, false)]
  {
    var s1 := Next(s, Audio(p)).value;
    var s2 := Next(s1, LetGo(p, false, false)).value;
    end := Next(s2, Clear(p)).value;
    steps := [Audio(p)] + ([LetGo(p, false, false)] + ([Clear(p)] + []));
    hide Next;
    RunOne(s2, Clear(p), [], end, end);
    RunOne(s1, LetGo(p, false, false), [Clear(p)] + [], s2, end);
    RunOne(s, Audio(p), [LetGo(p, false, false)] + ([Clear(p)] + []), s1, end);
  }

  /** A release that fails leaves the line up when the call has returned. */
  lemma ReleaseCanFail(s: Shared, p: nat) returns (steps: seq<Step>, end: Shared)
    requires Start(s) && p < |s.stages|
    ensures Reaches(s, steps, end) && !end.active && end.line && |end.stages| == |s.stages| && end.stages[p].Outside?
    ensures end.log == [Call(p, true, true, true), Call(p, false, false, false)]
  {
    var s1 := Next(s, Enter(p)).value;
    var s2 := Next(s1, Key(p, true, true)).value;
    var s3 := if s.keyDelay then Next(s2, Wait(p, false)).value else s2;
    var late;
    late, end := FailingRelease(s3, p);
    hide Next, Reaches;
    var rest := if s.keyDelay then [Wait(p, false)] + late else late;
    if s.keyDelay { RunOne(s2, Wait(p, false), late, s3, end); }
    RunOne(s1, Key(p, true, true), rest, s2, end);
    RunOne(s, Enter(p), [Key(p, true, true)] + rest, s1, end);
    steps := [Enter(p)] + ([Key(p, true, true)] + rest);
  }

  lemma RunOne(s: Shared, step: Step, rest: seq<Step>, next: Shared, end: Shared)
    requires Next(s, step) == Some(next) && Reaches(next, rest, end)
    ensures Reaches(s, [step] + rest, end)
  {
    assert ([step] + rest)[1..] == rest;
  }

  /** A key-up that raises the line but reports failure is never released. */
  lemma FailedKeyCanStick(s: Shared, p: nat) returns (steps: seq<Step>, end: Shared)
    requires Start(s) && p < |s.stages|
    ensures Reaches(s, steps, end) && !end.active && end.line && |end.stages| == |s.stages| && end.stages[p].Outside?
    ensures end.log == [Call(p, true, false, true)]
  {
    var s1 := Next(s, Enter(p)).value;
    var s2 := Next(s1, Key(p, false, true)).value;
    end := Next(s2, Clear(p)).value;
    steps := [Enter(p)] + ([Key(p, false, true)] + ([Clear(p)] + []));
    hide Next;
    RunOne(s2, Clear(p), [], end, end);
    RunOne(s1, Key(p, false, true), [Clear(p)] + [], s2, end);
    RunOne(s, Enter(p), [Key(p, false, true)] + ([Clear(p)] + []), s1, end);
  }

  /** Where every release lowers the line and no failing key-up raises it, a line that is up means a call is active. */
  lemma UpMeansActive(s: Shared, steps: seq<Step>, end: Shared)
    requires Start(s) && Reaches(s, steps, end)
    requires forall k | 0 <= k < |end.log| :: if end.log[k].key then !end.log[k].ok ==> !end.log[k].moved else end.log[k].moved
    ensures end.line ==> end.active
  {
    StartGood(s);
    hide Reaches, Next, Inv;
    ReachesKeeps(s, steps, end);
    IdleMeans(end);
    if !end.active {
      UpExactly(end.log);
      forall j ensures !LeftUp(end.log, j) {
        assert 0 <= j < |end.log| - 1 && KeyUp(end.log[j]) ==> Release(end.log[j + 1]);
      }
    }
  }

  lemma StartGood(s: Shared)
    requires Start(s)
    ensures Inv(s)
  {
  }

  lemma IdleMeans(s: Shared)
    requires Inv(s)
    ensures s.line == LineAfter(s.log) && Paired(s.log) && (forall k | 0 <= k < |s.log| :: Honest(s.log[k]))
    ensures !s.active ==> Unanswered(s.log) == None
  {
  }

  function KeyUps(log: seq<Call>): nat {
    if |log| == 0 then 0 else KeyUps(log[..|log| - 1]) + (if KeyUp(log[|log| - 1]) then 1 else 0)
  }

  function Releases(log: seq<Call>): nat {
    if |log| == 0 then 0 else Releases(log[..|log| - 1]) + (if Release(log[|log| - 1]) then 1 else 0)
  }

  /** As many releases as key-ups, but for the one still to be answered. */
  lemma {:induction false} OneReleaseEach(log: seq<Call>)
    requires Paired(log)
    ensures KeyUps(log) == Releases(log) + if Unanswered(log).Some? then 1 else 0
  {
    if |log| > 0 {
      var init := log[..|log| - 1];
      assert forall k | 0 <= k < |init| :: init[k] == log[k];
      OneReleaseEach(init);
    }
  }

  // ---- every call returns ----

  // How many steps a call has at most before it returns.
  function StepsLeft(stage: Stage): nat {
    match stage
    case Outside => 0
    case Admitted => 5
    case Delaying => 4
    case Sending => 3
    case Releasing => 2
    case Clearing => 1
  }

  // The step a call takes where it stands, for an answer of the driver and of the context.
  function Onward(s: Shared, p: nat, ok: bool, moved: bool, cancelled: bool): Step
    requires p < |s.stages|
  {
    match s.stages[p]
    case Outside => Enter(p)
    case Admitted => Key(p, ok, moved)
    case Delaying => Wait(p, cancelled)
    case Sending => Audio(p)
    case Releasing => LetGo(p, ok, moved)
    case Clearing => Clear(p)
  }

  /** A call can always go on, whatever an honest driver answers and whether or not it is cancelled. */
  lemma CallGoesOn(s: Shared, p: nat, ok: bool, moved: bool, cancelled: bool)
    requires p < |s.stages| && (ok ==> moved)
    ensures Next(s, Onward(s, p, ok, moved, cancelled)).Some?
  {
    hide After;
  }

  /** Each step brings its own call nearer to the return, and moves no other call. */
  lemma StepBringsNearer(s: Shared, p: nat, step: Step)
    requires p < |s.stages| && Next(s, step).Some?
    ensures var n := Next(s, step).value;
            && |n.stages| == |s.stages|
            && (step.p != p ==> n.stages[p] == s.stages[p])
            && (step.p == p && !s.stages[p].Outside? ==> StepsLeft(n.stages[p]) < StepsLeft(s.stages[p]))
  {
    hide After;
  }
}
