/** The fan-out of live audio (server/internal/app/audio_hub.go) as the steps of concurrent publishers,
    consumers, subscribers and unsubscribers.  The mutex makes subscribing, unsubscribing and a whole
    publication exclude each other; consumers take from their channels at any moment. */
module AudioHub {
  import opened Bytes
  import opened Wrappers

  const CAPACITY := 64

  datatype Frame = Frame(channelID: string, sampleRate: int, samples: seq<int16>)

  predicate Publishable(f: Frame) { |f.samples| > 0 && f.sampleRate > 0 && f.channelID != "" }

  // How a frame left a channel: received by the consumer, or discarded by a publisher.
  datatype Removal = Consumed(frame: Frame) | Dropped(frame: Frame)

  // since, until: how many frames had been accepted when it subscribed and when it unsubscribed.
  datatype Subscriber = Subscriber(queue: seq<Frame>, removed: seq<Removal>, since: nat, until: nat, open: bool)

  datatype Phase = Offering | Discarding | Retrying

  // The mutex, and how far the publication that holds it has come.
  datatype Lock = Free | Publishing(frame: Frame, waiting: set<int>) | Sending(frame: Frame, waiting: set<int>, to: int, phase: Phase)

  // accepted: every frame published so far; lost: frames that found no room after the discard;
  // panicked: something was sent on a closed channel.
  datatype Hub = Hub(subs: map<int, Subscriber>, lock: Lock, accepted: seq<Frame>, lost: nat, panicked: bool)

  const EMPTY := Hub(map[], Free, [], 0, false)

  datatype Step =
    | Subscribe(id: int)
    | Unsubscribe(id: int)
    | Begin(frame: Frame)   // Publish, up to and including the lock
    | Turn(id: int)         // the loop reaches a subscriber
    | Send                  // one select statement for that subscriber
    | End                   // the deferred unlock
    | Receive(id: int)      // a consumer receives

  function Push(h: Hub, id: int, f: Frame): Hub
    requires id in h.subs
  {
    if h.subs[id].open then h.(subs := h.subs[id := h.subs[id].(queue := h.subs[id].queue + [f])]) else h.(panicked := true)
  }

  function Take(h: Hub, id: int, how: Removal): Hub
    requires id in h.subs && |h.subs[id].queue| > 0
  {
    h.(subs := h.subs[id := h.subs[id].(queue := h.subs[id].queue[1..], removed := h.subs[id].removed + [how])])
  }

  function Sent(h: Hub): Hub
    requires h.lock.Sending? && h.lock.to in h.subs
  {
    var Sending(frame, waiting, to, phase) := h.lock;
    var queue := h.subs[to].queue;
    match phase
    case Offering =>
      if |queue| < CAPACITY then Push(h, to, frame).(lock := Publishing(frame, waiting))
      else h.(lock := Sending(frame, waiting, to, Discarding))
    case Discarding =>
      (if |queue| > 0 then Take(h, to, Dropped(queue[0])) else h).(lock := Sending(frame, waiting, to, Retrying))
    case Retrying =>
      (if |queue| < CAPACITY then Push(h, to, frame) else h.(lost := h.lost + 1)).(lock := Publishing(frame, waiting))
  }

  function Open(h: Hub): set<int> { set id | id in h.subs && h.subs[id].open }

  /** One step, or None where it cannot happen: the mutex is taken or the channel empty. */
  function Next(h: Hub, step: Step): Option<Hub> {
    match step
    case Subscribe(id) =>
      if h.lock.Free? && id !in h.subs then Some(h.(subs := h.subs[id := Subscriber([], [], |h.accepted|, 0, true)])) else None
    case Unsubscribe(id) =>
      if !h.lock.Free? || id !in h.subs then None
      else if !h.subs[id].open then Some(h)
      else Some(h.(subs := h.subs[id := h.subs[id].(open := false, until := |h.accepted|)]))
    case Begin(frame) =>
      if !Publishable(frame) then Some(h)
      else if h.lock.Free? then Some(h.(lock := Publishing(frame, Open(h)), accepted := h.accepted + [frame])) else None
    case Turn(id) =>
      if h.lock.Publishing? && id in h.lock.waiting then
        Some(h.(lock := Sending(h.lock.frame, h.lock.waiting - {id}, id, Offering)))
      else None
    case Send =>
      if h.lock.Sending? && h.lock.to in h.subs then Some(Sent(h)) else None
    case End =>
      if h.lock.Publishing? && h.lock.waiting == {} then Some(h.(lock := Free)) else None
    case Receive(id) =>
      if id in h.subs && |h.subs[id].queue| > 0 then Some(Take(h, id, Consumed(h.subs[id].queue[0]))) else None
  }

  ghost predicate Run(h: Hub, steps: seq<Step>, end: Hub)
    decreases |steps|
  {
    if |steps| == 0 then end == h
    else var next := Next(h, steps[0]); next.Some? && Run(next.value, steps[1..], end)
  }

  // ---- the invariant ----

  function FramesOf(removed: seq<Removal>): seq<Frame> {
    if |removed| == 0 then [] else FramesOf(removed[..|removed| - 1]) + [removed[|removed| - 1].frame]
  }

  function Drops(removed: seq<Removal>): nat {
    if |removed| == 0 then 0 else Drops(removed[..|removed| - 1]) + (if removed[|removed| - 1].Dropped? then 1 else 0)
  }

  // The publication under way has not reached this subscriber, or not finished with it.
  predicate Pending(lock: Lock, id: int) {
    !lock.Free? && (id in lock.waiting || (lock.Sending? && lock.to == id))
  }

  predicate In(lock: Lock, id: int, phase: Phase) { lock.Sending? && lock.to == id && lock.phase == phase }

  /** How many of the accepted frames have been offered to a subscriber, or came before it. */
  function Handled(h: Hub, id: int): int
    requires id in h.subs
  {
    if !h.subs[id].open then h.subs[id].until
    else if Pending(h.lock, id) then |h.accepted| - 1
    else |h.accepted|
  }

  /** What has passed through a channel is exactly, and in order, what was published while it was
      subscribed; the queue is bounded; only frames beyond a full queue are ever discarded. */
  ghost predicate Delivered(accepted: seq<Frame>, s: Subscriber, handled: int, slack: int) {
    && s.since <= handled <= |accepted|
    && FramesOf(s.removed) + s.queue == accepted[s.since..handled]
    && |s.queue| <= CAPACITY
    && (Drops(s.removed) == 0 || Drops(s.removed) + CAPACITY <= handled - s.since + slack)
  }

  ghost predicate Good(h: Hub, id: int)
    requires id in h.subs
  {
    && Delivered(h.accepted, h.subs[id], Handled(h, id), if In(h.lock, id, Retrying) then 1 else 0)
    && (In(h.lock, id, Retrying) ==> |h.subs[id].queue| < CAPACITY)
    && (In(h.lock, id, Discarding) ==> Drops(h.subs[id].removed) + CAPACITY <= Handled(h, id) - h.subs[id].since)
    && (Pending(h.lock, id) ==> h.subs[id].open && h.subs[id].since < |h.accepted|)
    && (In(h.lock, id, Retrying) || LastConsumed(h.subs[id]))
  }

  // A channel is only ever emptied by its consumer.
  predicate LastConsumed(s: Subscriber) { |s.queue| == 0 && |s.removed| > 0 ==> s.removed[|s.removed| - 1].Consumed? }

  ghost predicate LockGood(h: Hub) {
    !h.lock.Free? ==>
      && |h.accepted| > 0 && h.lock.frame == h.accepted[|h.accepted| - 1]
      && h.lock.waiting <= h.subs.Keys
      && (h.lock.Sending? ==> h.lock.to in h.subs && h.lock.to !in h.lock.waiting)
  }

  ghost predicate Inv(h: Hub) {
    && h.lost == 0 && !h.panicked
    && LockGood(h)
    && forall id | id in h.subs :: Good(h, id)
  }

  // ---- what each change of a channel does ----

  lemma {:induction false} DropsAtMost(removed: seq<Removal>)
    ensures Drops(removed) <= |removed| == |FramesOf(removed)|
  {
    if |removed| > 0 { DropsAtMost(removed[..|removed| - 1]); }
  }

  lemma TakeDelivers(accepted: seq<Frame>, s: Subscriber, handled: int, slack: int, how: Removal)
    requires Delivered(accepted, s, handled, slack) && |s.queue| > 0 && how.frame == s.queue[0]
    requires how.Dropped? ==> Drops(s.removed) + CAPACITY <= handled - s.since
    ensures var t := s.(queue := s.queue[1..], removed := s.removed + [how]);
            && Delivered(accepted, t, handled, if how.Dropped? then 1 else slack)
            && Drops(t.removed) == Drops(s.removed) + if how.Dropped? then 1 else 0
  {
    var r := s.removed + [how];
    assert r[..|r| - 1] == s.removed;
    assert FramesOf(s.removed) + s.queue == (FramesOf(s.removed) + [s.queue[0]]) + s.queue[1..];
  }

  lemma PushDelivers(accepted: seq<Frame>, s: Subscriber, handled: int, slack: int, f: Frame)
    requires Delivered(accepted, s, handled, slack) && |s.queue| < CAPACITY && slack <= 1
    requires handled < |accepted| && f == accepted[handled]
    ensures Delivered(accepted, s.(queue := s.queue + [f]), handled + 1, 0)
  {
    assert accepted[s.since..handled + 1] == accepted[s.since..handled] + [f];
    assert FramesOf(s.removed) + (s.queue + [f]) == (FramesOf(s.removed) + s.queue) + [f];
  }

  // A full queue leaves that many fewer removals.
  lemma FullMeansRemoved(accepted: seq<Frame>, s: Subscriber, handled: int, slack: int)
    requires Delivered(accepted, s, handled, slack) && |s.queue| == CAPACITY
    ensures Drops(s.removed) + CAPACITY <= handled - s.since
  {
    DropsAtMost(s.removed);
    assert |FramesOf(s.removed) + s.queue| == handled - s.since;
  }

  // ---- every step keeps it ----

  lemma SubscribeKeeps(h: Hub, id: int)
    requires Inv(h) && Next(h, Subscribe(id)).Some?
    ensures Inv(Next(h, Subscribe(id)).value)
  {
    hide Drops, FramesOf;
    var n := Next(h, Subscribe(id)).value;
    NothingRemoved();
    forall k | k in n.subs ensures Good(n, k) {
      if k == id { assert n.accepted[|n.accepted|..|n.accepted|] == []; } else { assert Good(h, k); }
    }
  }

  lemma NothingRemoved()
    ensures Drops([]) == 0 && FramesOf([]) == []
  {
  }

  lemma UnsubscribeKeeps(h: Hub, id: int)
    requires Inv(h) && Next(h, Unsubscribe(id)).Some?
    ensures Inv(Next(h, Unsubscribe(id)).value)
  {
    hide Drops, FramesOf;
    var n := Next(h, Unsubscribe(id)).value;
    assert Good(h, id);
    forall k | k in n.subs ensures Good(n, k) { assert Good(h, k); }
  }

  lemma BeginKeeps(h: Hub, f: Frame)
    requires Inv(h) && Next(h, Begin(f)).Some?
    ensures Inv(Next(h, Begin(f)).value)
  {
    hide Drops, FramesOf;
    var n := Next(h, Begin(f)).value;
    forall k | k in n.subs ensures Good(n, k) {
      assert Good(h, k);
      var s, handled := h.subs[k], Handled(h, k);
      assert n.accepted == h.accepted || n.accepted == h.accepted + [f];
      assert n.accepted[s.since..handled] == h.accepted[s.since..handled];
    }
  }

  lemma TurnKeeps(h: Hub, id: int)
    requires Inv(h) && Next(h, Turn(id)).Some?
    ensures Inv(Next(h, Turn(id)).value)
  {
    hide Delivered, Drops;
    var n := Next(h, Turn(id)).value;
    forall k | k in n.subs ensures Good(n, k) { assert Good(h, k); }
  }

  lemma EndKeeps(h: Hub)
    requires Inv(h) && Next(h, End).Some?
    ensures Inv(Next(h, End).value)
  {
    hide Delivered, Drops;
    var n := Next(h, End).value;
    forall k | k in n.subs ensures Good(n, k) { assert Good(h, k); }
  }

  lemma ReceiveKeeps(h: Hub, id: int)
    requires Inv(h) && Next(h, Receive(id)).Some?
    ensures Inv(Next(h, Receive(id)).value)
  {
    hide Delivered, Drops;
    var n := Next(h, Receive(id)).value;
    forall k | k in n.subs ensures Good(n, k) {
      assert Good(h, k);
      if k == id {
        var slack := if In(h.lock, id, Retrying) then 1 else 0;
        TakeDelivers(h.accepted, h.subs[id], Handled(h, id), slack, Consumed(h.subs[id].queue[0]));
      }
    }
  }

  // The others do not notice what a publication does at one subscriber.
  lemma OthersKeep(h: Hub, n: Hub, to: int)
    requires Inv(h) && to in h.subs && h.lock.Sending? && h.lock.to == to
    requires n.accepted == h.accepted && n.subs.Keys == h.subs.Keys && !n.lock.Free? && n.lock.waiting == h.lock.waiting
    requires n.lock.Sending? ==> n.lock.to == to
    requires forall k | k in h.subs && k != to :: n.subs[k] == h.subs[k]
    ensures forall k | k in n.subs && k != to :: Good(n, k)
  {
    hide Delivered, Drops;
    forall k | k in n.subs && k != to ensures Good(n, k) { assert Good(h, k); }
  }

  lemma OfferKeeps(h: Hub)
    requires Inv(h) && h.lock.Sending? && h.lock.phase.Offering? && h.lock.to in h.subs
    ensures Inv(Sent(h))
  {
    hide Delivered, Drops;
    var to, s, n := h.lock.to, h.subs[h.lock.to], Sent(h);
    assert Good(h, to);
    QueueBounded(h, to);
    if |s.queue| < CAPACITY {
      PushDelivers(h.accepted, s, Handled(h, to), 0, h.lock.frame);
    } else {
      FullMeansRemoved(h.accepted, s, Handled(h, to), 0);
    }
    OthersKeep(h, n, to);
    assert Good(n, to);
  }

  lemma QueueBounded(h: Hub, id: int)
    requires id in h.subs && Good(h, id)
    ensures |h.subs[id].queue| <= CAPACITY && h.subs[id].since <= Handled(h, id) <= |h.accepted|
  {
    hide Drops, FramesOf;
  }

  lemma DiscardKeeps(h: Hub)
    requires Inv(h) && h.lock.Sending? && h.lock.phase.Discarding? && h.lock.to in h.subs
    ensures Inv(Sent(h))
  {
    hide Drops, FramesOf, Delivered;
    var to, s, n := h.lock.to, h.subs[h.lock.to], Sent(h);
    assert Good(h, to);
    QueueBounded(h, to);
    if |s.queue| > 0 {
      TakeDelivers(h.accepted, s, Handled(h, to), 0, Dropped(s.queue[0]));
    } else {
      MoreSlack(h.accepted, s, Handled(h, to));
    }
    OthersKeep(h, n, to);
    assert Good(n, to);
  }

  lemma MoreSlack(accepted: seq<Frame>, s: Subscriber, handled: int)
    requires Delivered(accepted, s, handled, 0)
    ensures Delivered(accepted, s, handled, 1)
  {
  }

  lemma RetryKeeps(h: Hub)
    requires Inv(h) && h.lock.Sending? && h.lock.phase.Retrying? && h.lock.to in h.subs
    ensures Inv(Sent(h))
  {
    hide Drops, FramesOf, Delivered;
    var to, s, n := h.lock.to, h.subs[h.lock.to], Sent(h);
    assert Good(h, to);
    PushDelivers(h.accepted, s, Handled(h, to), 1, h.lock.frame);
    OthersKeep(h, n, to);
    assert Good(n, to);
  }

  lemma NextKeeps(h: Hub, step: Step)
    requires Inv(h) && Next(h, step).Some?
    ensures Inv(Next(h, step).value)
  {
    hide Inv, Sent;
    match step
    case Subscribe(id) => SubscribeKeeps(h, id);
    case Unsubscribe(id) => UnsubscribeKeeps(h, id);
    case Begin(frame) => BeginKeeps(h, frame);
    case Turn(id) => TurnKeeps(h, id);
    case Send =>
      match h.lock.phase {
        case Offering => OfferKeeps(h);
        case Discarding => DiscardKeeps(h);
        case Retrying => RetryKeeps(h);
      }
    case End => EndKeeps(h);
    case Receive(id) => ReceiveKeeps(h, id);
  }

  lemma {:induction false} RunKeeps(h: Hub, steps: seq<Step>, end: Hub)
    requires Inv(h) && Run(h, steps, end)
    ensures Inv(end)
    decreases |steps|
  {
    hide Inv, Next;
    if |steps| > 0 {
      NextKeeps(h, steps[0]);
      RunKeeps(Next(h, steps[0]).value, steps[1..], end);
    }
  }

  /** Over every interleaving from an empty hub: nothing is sent on a closed channel, no publication loses
      the frame it publishes, and every subscriber's removed frames followed by its queue are exactly the
      frames published to it while subscribed, in order, with at most 64 of them queued and none of its
      first 64 discarded. */
  lemma Fanout(steps: seq<Step>, end: Hub)
    requires Run(EMPTY, steps, end)
    ensures !end.panicked && end.lost == 0
    ensures end.lock.Sending? ==> end.lock.to in end.subs && end.subs[end.lock.to].open
    ensures end.lock.Sending? && end.lock.phase.Retrying? ==> |end.subs[end.lock.to].queue| < 64
    ensures forall id | id in end.subs ::
              var s := end.subs[id];
              && s.since <= Handled(end, id) <= |end.accepted|
              && FramesOf(s.removed) + s.queue == end.accepted[s.since..Handled(end, id)]
              && |s.queue| <= 64
              && (Drops(s.removed) == 0 || Drops(s.removed) + 64 <= Handled(end, id) - s.since + 1)
  {
    hide Run, FramesOf, Drops;
    RunKeeps(EMPTY, steps, end);
    forall id | id in end.subs ensures Good(end, id) {}
    assert end.lock.Sending? ==> Good(end, end.lock.to);
  }

  /** Between publications an open subscriber has been offered every frame since it subscribed, and
      discarded at most those that exceed the queue. */
  lemma FanoutAtRest(steps: seq<Step>, end: Hub, id: int)
    requires Run(EMPTY, steps, end) && end.lock.Free? && id in end.subs && end.subs[id].open
    ensures end.subs[id].since <= |end.accepted|
    ensures FramesOf(end.subs[id].removed) + end.subs[id].queue == end.accepted[end.subs[id].since..]
    ensures Drops(end.subs[id].removed) == 0
         || Drops(end.subs[id].removed) <= |end.accepted| - end.subs[id].since - 64
  {
    hide Run, FramesOf, Drops;
    RunKeeps(EMPTY, steps, end);
    assert Good(end, id);
  }

  /** The frame of a completed publication is the last one its subscribers were given: in each queue it
      stands last, unless the consumer has already received it, and everything before it. */
  lemma NewestKept(steps: seq<Step>, end: Hub, id: int)
    requires Run(EMPTY, steps, end) && end.lock.Free? && id in end.subs && end.subs[id].open
    requires |end.accepted| > end.subs[id].since
    ensures var s := end.subs[id];
            if |s.queue| > 0 then s.queue[|s.queue| - 1] == end.accepted[|end.accepted| - 1]
            else |s.removed| > 0 && s.removed[|s.removed| - 1] == Consumed(end.accepted[|end.accepted| - 1])
  {
    hide Run, Drops, FramesOf;
    var s := end.subs[id];
    FanoutAtRest(steps, end, id);
    var all := end.accepted[s.since..];
    assert all[|all| - 1] == end.accepted[|end.accepted| - 1];
    LastRemoved(s.removed);
    RunKeeps(EMPTY, steps, end);
    assert Good(end, id);
  }

  lemma LastRemoved(removed: seq<Removal>)
    ensures |FramesOf(removed)| == |removed|
    ensures |removed| > 0 ==> FramesOf(removed)[|removed| - 1] == removed[|removed| - 1].frame
  {
    DropsAtMost(removed);
    if |removed| > 0 { DropsAtMost(removed[..|removed| - 1]); }
  }

  // ---- from the steps alone ----

  /** The frames a run publishes: those with samples, a rate and a channel; the hub turns the others away. */
  function Aired(steps: seq<Step>): seq<Frame> {
    if |steps| == 0 then []
    else
      var rest := Aired(steps[1..]);
      if steps[0].Begin? && |steps[0].frame.samples| != 0 && steps[0].frame.sampleRate >= 1 && |steps[0].frame.channelID| != 0
      then [steps[0].frame] + rest else rest
  }

  lemma {:induction false} AcceptsAired(h: Hub, steps: seq<Step>, end: Hub)
    requires Run(h, steps, end)
    ensures end.accepted == h.accepted + Aired(steps)
    decreases |steps|
  {
    if |steps| > 0 {
      AcceptsOne(h, steps[0]);
      hide Next;
      AcceptsAired(Next(h, steps[0]).value, steps[1..], end);
    }
  }

  lemma AcceptsOne(h: Hub, step: Step)
    requires Next(h, step).Some?
    ensures Next(h, step).value.accepted == h.accepted
                                          + if step.Begin? && |step.frame.samples| != 0 && step.frame.sampleRate >= 1
                                               && |step.frame.channelID| != 0 then [step.frame] else []
  {
  }

  lemma {:induction false} RunSplit(h: Hub, a: seq<Step>, b: seq<Step>, end: Hub) returns (mid: Hub)
    requires Run(h, a + b, end)
    ensures Run(h, a, mid) && Run(mid, b, end)
    decreases |a|
  {
    hide Next;
    if |a| == 0 {
      mid := h;
      assert a + b == b;
    } else {
      assert (a + b)[0] == a[0] && (a + b)[1..] == a[1..] + b;
      mid := RunSplit(Next(h, a[0]).value, a[1..], b, end);
    }
  }

  lemma FirstStep(h: Hub, step: Step, rest: seq<Step>, end: Hub)
    requires Run(h, [step] + rest, end)
    ensures Next(h, step).Some? && Run(Next(h, step).value, rest, end)
  {
    assert ([step] + rest)[1..] == rest;
  }

  // A subscriber stays one, with the same start, until it unsubscribes; after that it gets nothing more.
  lemma StaysOne(h: Hub, step: Step, id: int)
    requires Next(h, step).Some? && id in h.subs
    ensures var n := Next(h, step).value;
            && id in n.subs && n.subs[id].since == h.subs[id].since
            && (step != Unsubscribe(id) ==> n.subs[id].open == h.subs[id].open && n.subs[id].until == h.subs[id].until)
            && (step == Unsubscribe(id) && h.subs[id].open ==> !n.subs[id].open && n.subs[id].until == |h.accepted|)
            && (!h.subs[id].open ==> !n.subs[id].open && n.subs[id].until == h.subs[id].until)
  {
  }

  lemma {:induction false} Stays(h: Hub, steps: seq<Step>, end: Hub, id: int)
    requires Run(h, steps, end) && id in h.subs
    ensures id in end.subs && end.subs[id].since == h.subs[id].since
    ensures Unsubscribe(id) !in steps || !h.subs[id].open ==>
              end.subs[id].open == h.subs[id].open && end.subs[id].until == h.subs[id].until
    decreases |steps|
  {
    hide Next;
    if |steps| > 0 {
      StaysOne(h, steps[0], id);
      Stays(Next(h, steps[0]).value, steps[1..], end, id);
    }
  }

  // Up to the moment it unsubscribes.
  lemma Joined(a: seq<Step>, b: seq<Step>, end: Hub, id: int)
    requires Run(EMPTY, a + ([Subscribe(id)] + b), end) && Unsubscribe(id) !in b
    ensures id in end.subs && end.subs[id].open && end.subs[id].since == |Aired(a)| && end.accepted == Aired(a) + Aired(b)
  {
    hide Run, Aired;
    var mid := RunSplit(EMPTY, a, [Subscribe(id)] + b, end);
    FirstStep(mid, Subscribe(id), b, end);
    AcceptsAired(EMPTY, a, mid);
    var joined := Next(mid, Subscribe(id)).value;
    AcceptsAired(joined, b, end);
    Stays(joined, b, end, id);
  }

  /** What a listener has received, missed or still in its queue is, in order and without a gap, what was published
      since it subscribed, at any time between publications. */
  lemma Listening(a: seq<Step>, b: seq<Step>, end: Hub, id: int)
    requires Run(EMPTY, a + ([Subscribe(id)] + b), end) && Unsubscribe(id) !in b && end.lock.Free?
    ensures id in end.subs && FramesOf(end.subs[id].removed) + end.subs[id].queue == Aired(b)
  {
    hide Run, FramesOf, Aired;
    Joined(a, b, end, id);
    FanoutAtRest(a + ([Subscribe(id)] + b), end, id);
  }

  /** And for one that has left, what was published until it did, whatever happens after. */
  lemma Left(a: seq<Step>, b: seq<Step>, c: seq<Step>, end: Hub, id: int)
    requires Run(EMPTY, a + ([Subscribe(id)] + b) + ([Unsubscribe(id)] + c), end) && Unsubscribe(id) !in b
    ensures id in end.subs && FramesOf(end.subs[id].removed) + end.subs[id].queue == Aired(b)
  {
    hide FramesOf, Aired, Drops, Next;
    var all := a + ([Subscribe(id)] + b) + ([Unsubscribe(id)] + c);
    var before := RunSplit(EMPTY, a + ([Subscribe(id)] + b), [Unsubscribe(id)] + c, end);
    Joined(a, b, before, id);
    FirstStep(before, Unsubscribe(id), c, end);
    StaysOne(before, Unsubscribe(id), id);
    var left := Next(before, Unsubscribe(id)).value;
    AcceptsOne(before, Unsubscribe(id));
    Stays(left, c, end, id);
    AcceptsAired(left, c, end);
    RunKeeps(EMPTY, all, end);
    assert Good(end, id);
    assert end.accepted[|Aired(a)|..|Aired(a) + Aired(b)|] == Aired(b);
  }

  // ---- a publisher never waits for a consumer ----

  // The select statements and turns left in the publication under way, and its unlock.
  function StepsLeft(lock: Lock): nat {
    match lock
    case Free => 0
    case Publishing(_, waiting) => 4 * |waiting| + 1
    case Sending(_, waiting, _, phase) => 4 * |waiting| + 1 + (match phase case Offering => 3 case Discarding => 2 case Retrying => 1)
  }

  predicate OfPublisher(step: Step) { step.Turn? || step.Send? || step.End? }

  /** Wherever a publication stands, its publisher can go on, whatever consumers do: with the select statement, with any
      subscriber left, or with the unlock when none is; each of its steps brings it nearer to its end, and nothing else
      moves it. */
  lemma PublisherGoesOn(steps: seq<Step>, h: Hub, step: Step)
    requires Run(EMPTY, steps, h) && !h.lock.Free?
    ensures h.lock.Sending? ==> Next(h, Send).Some?
    ensures h.lock.Publishing? ==> if h.lock.waiting == {} then Next(h, End).Some? else forall id | id in h.lock.waiting :: Next(h, Turn(id)).Some?
    ensures Next(h, step).Some? ==>
              var n := Next(h, step).value;
              if OfPublisher(step) then StepsLeft(n.lock) < StepsLeft(h.lock) else n.lock == h.lock
  {
    hide Run;
    RunKeeps(EMPTY, steps, h);
    LockIsGood(h);
    hide Inv;
    if Next(h, step).Some? { StepNearer(h, step); }
    hide StepsLeft;
  }

  lemma StepNearer(h: Hub, step: Step)
    requires LockGood(h) && !h.lock.Free? && Next(h, step).Some?
    ensures var n := Next(h, step).value;
            if OfPublisher(step) then StepsLeft(n.lock) < StepsLeft(h.lock) else n.lock == h.lock
  {
    if step.Turn? { assert |h.lock.waiting - {step.id}| == |h.lock.waiting| - 1; }
  }

  lemma LockIsGood(h: Hub)
    requires Inv(h)
    ensures LockGood(h)
  {
  }

  /** What the others can do: a consumer receives whenever something is queued for it; the list of subscribers and the next
      publication wait for the mutex. */
  lemma OthersMay(h: Hub, id: int, f: Frame)
    ensures Next(h, Receive(id)).Some? <==> id in h.subs && h.subs[id].queue != []
    ensures Next(h, Subscribe(id)).Some? <==> h.lock == Free && id !in h.subs
    ensures Next(h, Unsubscribe(id)).Some? <==> h.lock == Free && id in h.subs
    ensures f.sampleRate > 0 && f.samples != [] && f.channelID != "" ==> (Next(h, Begin(f)).Some? <==> h.lock == Free)
  {
  }
}
