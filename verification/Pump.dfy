/** The event queue of opencode.go: deliverers append to an unbounded queue and
    put one token into a notify channel; a pump moves the queue into a bounded
    channel until it is told to stop.

    Class EventQueue has one method per section of queueMu. In the machine the
    deliverers, the pump, the consumer and the stop interleave freely. */
module Pump {

  datatype Event = Event(name: string)

  // ---------------------------------------------------------------- sections

  datatype Queue = Queue(events: seq<Event>, closed: bool)

  /** The section of deliver; false means that the events are refused. */
  function AppendSection(q: Queue, evs: seq<Event>): (Queue, bool) {
    if q.closed then (q, false) else (q.(events := q.events + evs), true)
  }

  /** The section that the pump runs before each batch. */
  function SwapSection(q: Queue): (Queue, seq<Event>) {
    (q.(events := []), q.events)
  }

  /** The section of flush. */
  function FlushSection(q: Queue): (Queue, seq<Event>) {
    (Queue([], true), q.events)
  }

  class EventQueue {
    var queue: seq<Event>
    var queueClosed: bool

    function State(): Queue
      reads this
    {
      Queue(queue, queueClosed)
    }

    constructor ()
      ensures State() == Queue([], false)
    {
      queue, queueClosed := [], false;
    }

    /** deliver up to the notification: true means that a token is due. */
    method Deliver(evs: seq<Event>) returns (notify: bool)
      modifies this
      ensures evs == [] ==> State() == old(State()) && !notify
      ensures evs != [] ==> (State(), notify) == AppendSection(old(State()), evs)
      ensures notify <==> evs != [] && !old(queueClosed)
      ensures queue == (if old(queueClosed) then old(queue) else old(queue) + evs) && queueClosed == old(queueClosed)
    {
      if |evs| == 0 || queueClosed {
        return false;
      }
      queue := queue + evs;
      return true;
    }

    method Swap() returns (batch: seq<Event>)
      modifies this
      ensures (State(), batch) == SwapSection(old(State()))
      ensures batch == old(queue) && queue == [] && queueClosed == old(queueClosed)
    {
      batch := queue;
      queue := [];
    }

    method CloseQueue() returns (batch: seq<Event>)
      modifies this
      ensures (State(), batch) == FlushSection(old(State()))
      ensures batch == old(queue) && queue == [] && queueClosed
    {
      batch := queue;
      queue := [];
      queueClosed := true;
    }
  }

  // ----------------------------------------------------------------- machine

  /** Where the pump is: before the swap, sending a batch, in the select of send
      with a full channel, in the select of the outer loop, in flush, done. */
  datatype Phase =
    | Looping
    | Sending(batch: seq<Event>)
    | Stalled(batch: seq<Event>)
    | Resting
    | Stopping
    | Flushing(batch: seq<Event>)
    | Ended

  /** The capacity of the consumer channel. */
  const CAPACITY := 256

  /** `notifying` counts the deliverers between their section and the token.
      `accepted`, `received` and `dropped` are logs. */
  datatype System = System(
    queue: Queue,
    notifying: nat,
    token: bool,
    phase: Phase,
    channel: seq<Event>,
    channelClosed: bool,
    stop: bool,
    accepted: seq<Event>,
    received: seq<Event>,
    dropped: seq<Event>,
    panicked: bool)

  datatype Step =
    | Deliver(evs: seq<Event>)
    | Notify
    | Swap
    | SendOne
    | SendStalled
    | GiveUp
    | Wake
    | SeeStop
    | CloseQueue
    | FlushOne
    | Return
    | Consume
    | Stop

  const INITIAL := System(Queue([], false), 0, false, Looping, [], false, false, [], [], [], false)

  /** `events <- ev` on a channel with room. */
  function Push(s: System, ev: Event): System {
    if s.channelClosed then s.(panicked := true) else s.(channel := s.channel + [ev])
  }

  predicate HasRoom(s: System) {
    |s.channel| < CAPACITY
  }

  function Apply(s: System, step: Step): System {
    match step
    case Deliver(evs) =>
      if evs == [] then s
      else
        var (queue, ok) := AppendSection(s.queue, evs);
        if !ok then s
        else s.(queue := queue, notifying := s.notifying + 1, accepted := s.accepted + evs)
    case Notify =>
      if s.notifying == 0 then s else s.(notifying := s.notifying - 1, token := true)
    case Swap =>
      if s.phase != Looping then s
      else
        var (queue, batch) := SwapSection(s.queue);
        s.(queue := queue, phase := Sending(batch))
    case SendOne =>
      if !s.phase.Sending? then s
      else if s.phase.batch == [] then s.(phase := Resting)
      else if HasRoom(s) then Push(s, s.phase.batch[0]).(phase := Sending(s.phase.batch[1..]))
      else s.(phase := Stalled(s.phase.batch))
    case SendStalled =>
      if !s.phase.Stalled? || s.phase.batch == [] || !HasRoom(s) then s
      else Push(s, s.phase.batch[0]).(phase := Sending(s.phase.batch[1..]))
    case GiveUp =>
      if !s.phase.Stalled? || !s.stop then s
      else s.(phase := Ended, dropped := s.phase.batch)
    case Wake =>
      if s.phase != Resting || !s.token then s else s.(token := false, phase := Looping)
    case SeeStop =>
      if s.phase != Resting || !s.stop then s else s.(phase := Stopping)
    case CloseQueue =>
      if s.phase != Stopping then s
      else
        var (queue, batch) := FlushSection(s.queue);
        s.(queue := queue, phase := Flushing(batch))
    case FlushOne =>
      if !s.phase.Flushing? then s
      else if s.phase.batch == [] then s.(phase := Ended)
      else if HasRoom(s) then Push(s, s.phase.batch[0]).(phase := Flushing(s.phase.batch[1..]))
      else s.(phase := Ended, dropped := s.phase.batch)
    case Return =>
      if s.phase != Ended || s.channelClosed then s else s.(channelClosed := true)
    case Consume =>
      if s.channel == [] then s
      else s.(channel := s.channel[1..], received := s.received + [s.channel[0]])
    case Stop => s.(stop := true)
  }

  function Exec(steps: seq<Step>): System {
    if steps == [] then INITIAL
    else Apply(Exec(steps[..|steps| - 1]), steps[|steps| - 1])
  }

  // -------------------------------------------------------------- invariants

  function InHand(phase: Phase): seq<Event> {
    if phase.Sending? || phase.Stalled? || phase.Flushing? then phase.batch else []
  }

  /** Everything accepted is somewhere, in the order of acceptance. */
  ghost predicate Ordered(s: System) {
    s.accepted == s.received + s.channel + InHand(s.phase) + s.dropped + s.queue.events
  }

  /** A pump that is not about to look at the queue knows of it, or will. */
  ghost predicate NoLostWakeup(s: System) {
    s.queue.events != [] && !s.queue.closed ==>
      s.token || s.notifying > 0 || s.phase in {Looping, Stopping, Ended}
  }

  ghost predicate PhasesFit(s: System) {
    && !s.panicked
    && |s.channel| <= CAPACITY
    && (s.channelClosed ==> s.phase == Ended)
    && (s.phase in {Stopping, Ended} || s.phase.Flushing? ==> s.stop)
    && (s.dropped != [] ==> s.phase == Ended)
    && (s.phase.Flushing? ==> s.queue.closed)
    && (s.queue.closed ==> s.queue.events == [] && (s.phase.Flushing? || s.phase == Ended))
    && (s.phase.Stalled? ==> s.phase.batch != [])
  }

  ghost predicate Inv(s: System) {
    Ordered(s) && NoLostWakeup(s) && PhasesFit(s)
  }

  lemma {:induction false} OrderedByStep(s: System, step: Step)
    requires Ordered(s) && PhasesFit(s)
    ensures Ordered(Apply(s, step))
  {
    if step.Deliver? || step.Notify? || step.Consume? || step.Stop? || step.Return? {
      OrderedByOther(s, step);
    } else {
      OrderedByPump(s, step);
    }
  }

  lemma {:induction false} OrderedByOther(s: System, step: Step)
    requires Ordered(s) && (step.Deliver? || step.Notify? || step.Consume? || step.Stop? || step.Return?)
    ensures Ordered(Apply(s, step))
  {
  }

  lemma {:induction false} OrderedByPump(s: System, step: Step)
    requires Ordered(s) && PhasesFit(s)
    requires !(step.Deliver? || step.Notify? || step.Consume? || step.Stop? || step.Return?)
    ensures Ordered(Apply(s, step))
  {
    if step.SendOne? || step.SendStalled? || step.FlushOne? {
      OrderedBySend(s, step);
    }
  }

  lemma {:induction false} OrderedBySend(s: System, step: Step)
    requires Ordered(s) && PhasesFit(s) && (step.SendOne? || step.SendStalled? || step.FlushOne?)
    ensures Ordered(Apply(s, step))
  {
  }

  lemma {:induction false} InvByStep(s: System, step: Step)
    requires Inv(s)
    ensures Inv(Apply(s, step))
  {
    OrderedByStep(s, step);
  }

  /** Holds in every run: order, wake-ups, and no send on the closed channel. */
  lemma {:induction false} AlwaysInv(steps: seq<Step>)
    ensures Ordered(Exec(steps)) && NoLostWakeup(Exec(steps)) && PhasesFit(Exec(steps))
  {
    if steps != [] {
      AlwaysInv(steps[..|steps| - 1]);
      InvByStep(Exec(steps[..|steps| - 1]), steps[|steps| - 1]);
    }
  }

  // ---------------------------------------------------------------- theorems

  /** What the consumer got, followed by what waits in the channel, is a prefix of
      what was accepted; before the stop, the batch in hand and the queue are
      the rest of it. */
  lemma {:induction false} DeliveredInOrder(steps: seq<Step>)
    ensures var s := Exec(steps);
      && s.received + s.channel <= s.accepted
      && (!s.stop ==> s.received + s.channel + InHand(s.phase) + s.queue.events == s.accepted)
  {
    AlwaysInv(steps);
    var s := Exec(steps);
    StartOfSum(s.received + s.channel, InHand(s.phase), s.dropped, s.queue.events);
  }

  lemma {:induction false} StartOfSum(a: seq<Event>, b: seq<Event>, c: seq<Event>, d: seq<Event>)
    ensures a <= a + b + c + d
    ensures a + b + [] + d == a + b + d
  {
    assert a + b + c + d == a + (b + c + d);
    assert a + b + [] == a + b;
  }

  lemma {:induction false} EndedByStep(s: System, step: Step)
    requires s.phase == Ended
    ensures var s' := Apply(s, step); s'.phase == Ended && s'.received + s'.channel == s.received + s.channel
  {
    if step.Consume? && s.channel != [] {
      assert s.channel == [s.channel[0]] + s.channel[1..];
    }
  }

  /** Once the pump ended, nothing more reaches the consumer, whatever is still
      accepted: a pump that gave up leaves its queue open. */
  lemma {:induction false} EndedIsFinal(steps: seq<Step>, more: seq<Step>)
    requires Exec(steps).phase == Ended
    ensures var s, s' := Exec(steps), Exec(steps + more);
      s'.phase == Ended && s'.received + s'.channel == s.received + s.channel
  {
    if more == [] {
      assert steps + more == steps;
    } else {
      var before := steps + more[..|more| - 1];
      assert (steps + more)[..|steps + more| - 1] == before;
      EndedIsFinal(steps, more[..|more| - 1]);
      EndedByStep(Exec(before), more[|more| - 1]);
    }
  }

  /** If the pump ended by itself closing the queue and dropped nothing, all that
      was ever accepted reaches the consumer, and nothing else is accepted. */
  lemma {:induction false} CleanEndDeliversAll(steps: seq<Step>, evs: seq<Event>)
    requires Exec(steps).phase == Ended && Exec(steps).queue.closed && Exec(steps).dropped == []
    ensures var s := Exec(steps);
      s.received + s.channel == s.accepted && Apply(s, Deliver(evs)) == s
  {
    AlwaysInv(steps);
  }

  // ---------------------------------------------------------------- progress

  /** The steps that need no new event and no new stop: the deliverers finish their
      notification, the pump moves, the consumer reads. */
  predicate Internal(step: Step) {
    !step.Deliver? && !step.Stop?
  }

  function PhaseRank(phase: Phase): nat {
    match phase
    case Looping => 6
    case Sending(_) => 5
    case Stalled(_) => 4
    case Resting => 3
    case Stopping => 2
    case Flushing(_) => 1
    case Ended => 0
  }

  function Rank(s: System): nat {
    5 * |s.queue.events| + 4 * |InHand(s.phase)| + |s.channel|
    + 5 * s.notifying + (if s.token then 4 else 0) + PhaseRank(s.phase) + (if s.channelClosed then 0 else 1)
  }

  lemma {:induction false} RankDrops(s: System, step: Step)
    requires Internal(step) && Apply(s, step) != s && PhasesFit(s)
    ensures Rank(Apply(s, step)) < Rank(s)
    ensures Apply(s, step).accepted == s.accepted && Apply(s, step).stop == s.stop
  {
  }

  /** No internal step can change anything. */
  ghost predicate Quiet(s: System) {
    forall step :: Internal(step) ==> Apply(s, step) == s
  }

  lemma {:induction false} QuietMeansDelivered(s: System)
    requires Inv(s) && Quiet(s) && !s.stop
    ensures s.received == s.accepted
  {
    assert Apply(s, Notify) == s;
    assert Apply(s, Swap) == s;
    assert Apply(s, SendOne) == s;
    assert Apply(s, SendStalled) == s;
    assert Apply(s, Wake) == s;
    assert Apply(s, Consume) == s;
    assert s.notifying == 0 && s.phase == Resting && !s.token;
  }

  /** `more` consists of internal steps, each of which does something. */
  ghost predicate Works(steps: seq<Step>, more: seq<Step>) {
    forall k :: 0 <= k < |more| ==>
      Internal(more[k]) && Exec(steps + more[..k + 1]) != Exec(steps + more[..k])
  }

  lemma {:induction false} WorksPrefix(steps: seq<Step>, more: seq<Step>, k: nat)
    requires Works(steps, more) && k <= |more|
    ensures Works(steps, more[..k])
  {
    forall j | 0 <= j < k
      ensures Internal(more[..k][j]) && Exec(steps + more[..k][..j + 1]) != Exec(steps + more[..k][..j])
    {
      assert more[..k][..j + 1] == more[..j + 1] && more[..k][..j] == more[..j];
    }
  }

  lemma {:induction false} LastWorks(steps: seq<Step>, more: seq<Step>)
    requires Works(steps, more) && more != []
    ensures var before, last := steps + more[..|more| - 1], more[|more| - 1];
      Internal(last) && Exec(steps + more) == Apply(Exec(before), last) && Exec(steps + more) != Exec(before)
  {
    var k := |more| - 1;
    assert more[..k + 1] == more;
    assert (steps + more)[..|steps + more| - 1] == steps + more[..k];
  }

  lemma {:induction false} WorkIsBounded(steps: seq<Step>, more: seq<Step>)
    requires Works(steps, more)
    ensures |more| + Rank(Exec(steps + more)) <= Rank(Exec(steps))
    ensures Exec(steps + more).stop == Exec(steps).stop
    ensures Exec(steps + more).accepted == Exec(steps).accepted
  {
    if more == [] {
      assert steps + more == steps;
    } else {
      var k := |more| - 1;
      var before := Exec(steps + more[..k]);
      WorksPrefix(steps, more, k);
      WorkIsBounded(steps, more[..k]);
      LastWorks(steps, more);
      AlwaysInv(steps + more[..k]);
      RankDrops(before, more[k]);
    }
  }

  /** No event is ever stuck. Before the stop, once no new event comes, only a
      bounded number of steps can follow, in any order; when nothing can move
      any more, the consumer has received every accepted event. */
  lemma {:induction false} EveryEventArrives(steps: seq<Step>, more: seq<Step>)
    requires !Exec(steps).stop && Works(steps, more)
    ensures |more| <= Rank(Exec(steps))
    ensures Quiet(Exec(steps + more)) ==> Exec(steps + more).received == Exec(steps).accepted
  {
    WorkIsBounded(steps, more);
    AlwaysInv(steps + more);
    if Quiet(Exec(steps + more)) {
      QuietMeansDelivered(Exec(steps + more));
    }
  }

  /** A stop is obeyed. Once no new event comes, only a bounded number of steps can
      follow, and when nothing can move any more, the channel is closed and the
      consumer has read it to its end. */
  lemma {:induction false} StopEndsThePump(steps: seq<Step>, more: seq<Step>)
    requires Exec(steps).stop && Works(steps, more)
    ensures |more| <= Rank(Exec(steps))
    ensures Quiet(Exec(steps + more)) ==>
      var s := Exec(steps + more); s.phase == Ended && s.channelClosed && s.channel == [] && s.received <= s.accepted
  {
    WorkIsBounded(steps, more);
    AlwaysInv(steps + more);
    DeliveredInOrder(steps + more);
    if Quiet(Exec(steps + more)) {
      QuietMeansClosed(Exec(steps + more));
    }
  }

  lemma {:induction false} QuietMeansClosed(s: System)
    requires PhasesFit(s) && Quiet(s) && s.stop
    ensures s.phase == Ended && s.channelClosed && s.channel == []
  {
    assert Apply(s, Swap) == s;
    assert Apply(s, SendOne) == s;
    assert Apply(s, GiveUp) == s;
    assert Apply(s, SeeStop) == s;
    assert Apply(s, CloseQueue) == s;
    assert Apply(s, FlushOne) == s;
    assert Apply(s, Return) == s;
    assert Apply(s, Consume) == s;
  }

  // ------------------------------------------------------------------- drops

  /** Events are lost in two ways only: the stop comes while a send waits for a full
      channel, or flush finds the channel full; then it is the batch in hand. */
  lemma {:induction false} DropsOnlyOnStop(steps: seq<Step>, step: Step)
    requires Exec(steps + [step]).dropped != Exec(steps).dropped
    ensures var s := Exec(steps);
      && s.stop && s.dropped == [] && Exec(steps + [step]).dropped == InHand(s.phase)
      && (s.phase.Stalled? || (s.phase.Flushing? && |s.channel| == 256))
  {
    AlwaysInv(steps);
    assert (steps + [step])[..|steps|] == steps;
  }

  function Flushes(n: nat): seq<Step> {
    if n == 0 then [] else Flushes(n - 1) + [FlushOne]
  }

  lemma {:induction false} ExecThen(steps: seq<Step>, step: Step)
    ensures Exec(steps + [step]) == Apply(Exec(steps), step)
  {
    assert (steps + [step])[..|steps|] == steps;
  }

  /** While there is room flush sends one event after the other. */
  lemma {:induction false} FlushSends(steps: seq<Step>, batch: seq<Event>, n: nat)
    requires Exec(steps).phase == Flushing(batch) && !Exec(steps).channelClosed
    requires n <= |batch| && |Exec(steps).channel| + |batch| <= 256
    ensures var s, s' := Exec(steps), Exec(steps + Flushes(n));
      s' == s.(channel := s.channel + batch[..n], phase := Flushing(batch[n..]))
  {
    if n == 0 {
      assert steps + Flushes(n) == steps && Exec(steps).channel + [] == Exec(steps).channel;
    } else {
      FlushSends(steps, batch, n - 1);
      ExecThen(steps + Flushes(n - 1), FlushOne);
      SumOfSteps(steps, Flushes(n - 1), FlushOne);
      FlushSendsOne(Exec(steps), batch, n - 1);
    }
  }

  lemma {:induction false} SumOfSteps(a: seq<Step>, b: seq<Step>, step: Step)
    ensures (a + b) + [step] == a + (b + [step])
  {
  }

  lemma {:induction false} FlushSendsOne(s: System, batch: seq<Event>, n: nat)
    requires !s.channelClosed && n < |batch| && |s.channel| + |batch| <= 256
    ensures Apply(s.(channel := s.channel + batch[..n], phase := Flushing(batch[n..])), FlushOne)
      == s.(channel := s.channel + batch[..n + 1], phase := Flushing(batch[n + 1..]))
  {
    assert batch[n..][0] == batch[n] && batch[n..][1..] == batch[n + 1..];
    assert s.channel + batch[..n + 1] == s.channel + batch[..n] + [batch[n]];
  }

  /** Where the channel has room for what is queued, a stop loses nothing: flush delivers
      the whole queue. */
  lemma {:induction false} FlushDelivers(steps: seq<Step>)
    requires Exec(steps).phase == Stopping && |Exec(steps).channel| + |Exec(steps).queue.events| <= 256
    ensures var s := Exec(steps);
      var s' := Exec(steps + [CloseQueue] + Flushes(|s.queue.events|) + [FlushOne]);
      && s'.phase == Ended && s'.dropped == []
      && s'.channel == s.channel + s.queue.events && s'.received + s'.channel == s.accepted == s'.accepted
  {
    var s := Exec(steps);
    AlwaysInv(steps);
    ExecThen(steps, CloseQueue);
    FlushSends(steps + [CloseQueue], s.queue.events, |s.queue.events|);
    ExecThen(steps + [CloseQueue] + Flushes(|s.queue.events|), FlushOne);
    AlwaysInv(steps + [CloseQueue] + Flushes(|s.queue.events|) + [FlushOne]);
  }
}
