/** The session lifecycle of internal/wire/wire.go: emit, finish, Close, KillTree,
    abort and the OnClose hooks, over the event channel, the channels `closing`
    and `done`, and emitMu.

    emit keeps emitMu while it waits for room, so a lock holder is part of the
    state of the machine. Consumers, contexts and timers answer freely. */
module Lifecycle {
  import opened Collections

  datatype Event = Event(name: string, isExit: bool)

  // -------------------------------------------------------------------- hooks

  /** The fields behind OnClose; a hook is named by the order of registration. */
  class Hooks {
    var onClose: seq<nat>

    constructor ()
      ensures onClose == []
    {
      onClose := [];
    }

    method OnClose(hook: nat)
      modifies this
      ensures onClose == old(onClose) + [hook]
    {
      onClose := onClose + [hook];
    }

    /** runOnClose with no other call in between: the hooks in the order in which
        they run. */
    method RunOnClose() returns (ran: seq<nat>)
      modifies this
      ensures ran == old(onClose) && onClose == []
    {
      var hooks := onClose;
      onClose := [];
      ran := [];
      for i := 0 to |hooks|
        invariant ran == hooks[..i]
        invariant onClose == []
      {
        ran := ran + [hooks[i]];
      }
    }
  }

  // ------------------------------------------------------------------ machine

  /** An emit waits for the lock, waits in the first select, waits in the second
      one (an exit event after Close), or is through. */
  datatype Emitter = Ready(e: Event) | Selecting(e: Event) | Draining(e: Event) | Through

  /** Close, abort and KillTree: before closeOnce, inside it, waiting for the end,
      running the hooks it took, returned. */
  datatype Closer = Starting(once: bool) | Inside | Awaiting | Running(hooks: seq<nat>) | Returned

  datatype Once = Unused | Busy | Used

  datatype Finish = NotYet | EventsClosed | AllClosed

  /** Where a hook is: registered, taken by a closer, or run. */
  datatype Place = Registered | TakenBy(c: nat) | Ran

  /** The record of one emit that got the lock: whether its event was sent or its
      second wait timed out, and whether `closing` or the event channel was
      closed by then. */
  datatype Attempt = Attempt(e: Event, sent: bool, timedOut: bool, closing: bool, ended: bool)

  const CAPACITY := 256

  datatype System = System(
    lock: Option<nat>,
    emitters: map<nat, Emitter>,
    channel: seq<Event>,
    emitClosed: bool,
    eventsCloses: nat,
    closingCloses: nat,
    doneCloses: nat,
    finish: Finish,
    once: Once,
    closers: map<nat, Closer>,
    onClose: seq<nat>,
    places: seq<Place>,
    ran: seq<nat>,
    attempts: seq<Attempt>,
    received: seq<Event>,
    panicked: bool)

  datatype Step =
    | Emit(g: nat, e: Event)
    | Lock(g: nat)
    | Send(g: nat)
    | SeeClosing(g: nat)
    | TimeOut(g: nat)
    | FinishEvents
    | FinishDone
    | Start(c: nat, once: bool)
    | EnterOnce(c: nat)
    | CloseClosing(c: nat)
    | TakeHooks(c: nat)
    | RunHook(c: nat)
    | OnClose
    | Receive

  const INITIAL := System(None, map[], [], false, 0, 0, 0, NotYet, Unused, map[], [], [], [], [], [], false)

  predicate Emits(s: System, g: nat) {
    g in s.emitters && (s.emitters[g].Selecting? || s.emitters[g].Draining?)
  }

  /** An emit ends and releases the lock. */
  function EndEmit(s: System, g: nat, sent: bool, timedOut: bool): System
    requires g in s.emitters && !s.emitters[g].Through?
  {
    s.(lock := None,
       emitters := s.emitters[g := Through],
       attempts := s.attempts + [Attempt(s.emitters[g].e, sent, timedOut, s.closingCloses > 0, s.emitClosed)])
  }

  function Apply(s: System, step: Step): System {
    match step
    case Emit(g, e) => if g in s.emitters then s else s.(emitters := s.emitters[g := Ready(e)])
    case Lock(g) =>
      if g !in s.emitters || !s.emitters[g].Ready? || s.lock.Some? then s
      else if s.emitClosed then EndEmit(s, g, false, false)
      else s.(lock := Some(g), emitters := s.emitters[g := Selecting(s.emitters[g].e)])
    case Send(g) =>
      if !Emits(s, g) then s
      else if s.eventsCloses > 0 then s.(panicked := true)
      else if |s.channel| >= CAPACITY then s
      else EndEmit(s.(channel := s.channel + [s.emitters[g].e]), g, true, false)
    case SeeClosing(g) =>
      if g !in s.emitters || !s.emitters[g].Selecting? || s.closingCloses == 0 then s
      else if s.emitters[g].e.isExit then s.(emitters := s.emitters[g := Draining(s.emitters[g].e)])
      else EndEmit(s, g, false, false)
    case TimeOut(g) =>
      if g !in s.emitters || !s.emitters[g].Draining? then s else EndEmit(s, g, false, true)
    case FinishEvents =>
      if s.finish != NotYet || s.lock.Some? then s
      else s.(emitClosed := true, eventsCloses := s.eventsCloses + 1, finish := EventsClosed)
    case FinishDone =>
      if s.finish != EventsClosed then s
      else s.(doneCloses := s.doneCloses + 1, finish := AllClosed)
    case Start(c, once) =>
      if c in s.closers then s else s.(closers := s.closers[c := Starting(once)])
    case EnterOnce(c) =>
      if c !in s.closers || !s.closers[c].Starting? then s
      else if !s.closers[c].once then s.(closers := s.closers[c := Awaiting])
      else if s.once == Unused then s.(once := Busy, closers := s.closers[c := Inside])
      else if s.once == Used then s.(closers := s.closers[c := Awaiting])
      else s
    case CloseClosing(c) =>
      if c !in s.closers || s.closers[c] != Inside then s
      else s.(closingCloses := s.closingCloses + 1, once := Used, closers := s.closers[c := Awaiting])
    case TakeHooks(c) =>
      if c !in s.closers || s.closers[c] != Awaiting || s.lock.Some? then s
      else s.(onClose := [], closers := s.closers[c := Running(s.onClose)],
              places := seq(|s.places|, i requires 0 <= i < |s.places| =>
                              if s.places[i] == Registered then TakenBy(c) else s.places[i]))
    case RunHook(c) =>
      if c !in s.closers || !s.closers[c].Running? then s
      else
        var hooks := s.closers[c].hooks;
        if hooks == [] then s.(closers := s.closers[c := Returned])
        else if hooks[0] >= |s.places| then s
        else s.(ran := s.ran + [hooks[0]], places := s.places[hooks[0] := Ran],
                closers := s.closers[c := Running(hooks[1..])])
    case OnClose =>
      if s.lock.Some? then s
      else s.(onClose := s.onClose + [|s.places|], places := s.places + [Registered])
    case Receive =>
      if s.channel == [] then s
      else s.(channel := s.channel[1..], received := s.received + [s.channel[0]])
  }

  function Exec(steps: seq<Step>): System {
    if steps == [] then INITIAL
    else Apply(Exec(steps[..|steps| - 1]), steps[|steps| - 1])
  }

  // ----------------------------------------------------------- closing channels

  /** Only the holder of the lock is in a select, and then the event channel is
      open. */
  ghost predicate LockGood(lock: Option<nat>, emitters: map<nat, Emitter>, emitClosed: bool) {
    && (forall g :: g in emitters && (emitters[g].Selecting? || emitters[g].Draining?) ==> lock == Some(g))
    && (lock.Some? ==> !emitClosed && lock.value in emitters
                       && (emitters[lock.value].Selecting? || emitters[lock.value].Draining?))
  }

  /** Each channel is closed once at most, by the one that may. */
  ghost predicate ClosesGood(s: System) {
    && !s.panicked
    && |s.channel| <= CAPACITY
    && s.eventsCloses == (if s.finish == NotYet then 0 else 1)
    && s.doneCloses == (if s.finish == AllClosed then 1 else 0)
    && (s.emitClosed <==> s.finish != NotYet)
    && s.closingCloses == (if s.once == Used then 1 else 0)
  }

  ghost predicate OnceGood(once: Once, closers: map<nat, Closer>) {
    && (forall c :: c in closers && closers[c] == Inside ==> once == Busy)
    && (forall c, d :: c in closers && d in closers && closers[c] == Inside && closers[d] == Inside ==> c == d)
  }

  lemma {:induction false} LockByStep(s: System, step: Step)
    requires LockGood(s.lock, s.emitters, s.emitClosed)
    ensures var s' := Apply(s, step); LockGood(s'.lock, s'.emitters, s'.emitClosed)
  {
    if step.Emit? || step.Lock? || step.Send? || step.SeeClosing? || step.TimeOut? {
      LockByEmitter(s, step);
    } else {
      LockByOther(s, step);
    }
  }

  lemma {:induction false} LockByEmitter(s: System, step: Step)
    requires LockGood(s.lock, s.emitters, s.emitClosed)
    requires step.Emit? || step.Lock? || step.Send? || step.SeeClosing? || step.TimeOut?
    ensures var s' := Apply(s, step); LockGood(s'.lock, s'.emitters, s'.emitClosed)
  {
  }

  lemma {:induction false} LockByOther(s: System, step: Step)
    requires LockGood(s.lock, s.emitters, s.emitClosed)
    requires !(step.Emit? || step.Lock? || step.Send? || step.SeeClosing? || step.TimeOut?)
    ensures var s' := Apply(s, step); LockGood(s'.lock, s'.emitters, s'.emitClosed)
  {
  }

  lemma {:induction false} ClosesByStep(s: System, step: Step)
    requires LockGood(s.lock, s.emitters, s.emitClosed) && OnceGood(s.once, s.closers) && ClosesGood(s)
    ensures ClosesGood(Apply(s, step))
  {
  }

  /** What a step does to closeOnce: a closer enters it while it is unused, the one
      inside leaves it used, or nobody enters. */
  ghost predicate OnceShape(s: System, s': System) {
    || (s'.once == s.once && forall c :: c in s'.closers && s'.closers[c] == Inside ==> c in s.closers && s.closers[c] == Inside)
    || (s.once == Unused && s'.once == Busy && exists c :: c in s.closers && s'.closers == s.closers[c := Inside])
    || (s'.once == Used && exists c :: c in s.closers && s.closers[c] == Inside && s'.closers == s.closers[c := Awaiting])
  }

  lemma {:induction false} StepOnce(s: System, step: Step)
    ensures OnceShape(s, Apply(s, step))
  {
  }

  lemma {:induction false} OnceByStep(s: System, step: Step)
    requires OnceGood(s.once, s.closers)
    ensures var s' := Apply(s, step); OnceGood(s'.once, s'.closers)
  {
    StepOnce(s, step);
    OnceByShape(s, Apply(s, step));
  }

  lemma {:induction false} OnceByShape(s: System, s': System)
    requires OnceGood(s.once, s.closers) && OnceShape(s, s')
    ensures OnceGood(s'.once, s'.closers)
  {
  }

  // -------------------------------------------------------------------- events

  /** The events of the attempts that were sent. */
  function Sent(attempts: seq<Attempt>): seq<Event> {
    if attempts == [] then []
    else
      var last := attempts[|attempts| - 1];
      Sent(attempts[..|attempts| - 1]) + if last.sent then [last.e] else []
  }

  ghost predicate Delivered(s: System) {
    s.received + s.channel == Sent(s.attempts)
  }

  /** An event is dropped only after Close or after the end, and an exit event
      only after the end or when its second wait timed out. */
  ghost predicate DropsExcused(attempts: seq<Attempt>) {
    forall i :: 0 <= i < |attempts| ==>
      if attempts[i].sent then !attempts[i].ended
      else if attempts[i].e.isExit then attempts[i].ended || (attempts[i].closing && attempts[i].timedOut)
      else attempts[i].closing || attempts[i].ended
  }

  ghost predicate DrainsAfterClose(emitters: map<nat, Emitter>, closingCloses: nat) {
    forall g :: g in emitters && emitters[g].Draining? ==> emitters[g].e.isExit && closingCloses > 0
  }

  lemma {:induction false} SentNext(attempts: seq<Attempt>, a: Attempt)
    ensures Sent(attempts + [a]) == Sent(attempts) + if a.sent then [a.e] else []
  {
    assert (attempts + [a])[..|attempts|] == attempts;
  }

  /** What a step does to the events: the consumer reads one, or an emit ends. */
  ghost predicate EventShape(s: System, s': System) {
    || (s'.attempts == s.attempts && s'.received == s.received && s'.channel == s.channel)
    || (s'.attempts == s.attempts && s.channel != []
        && s'.received == s.received + [s.channel[0]] && s'.channel == s.channel[1..])
    || (|s'.attempts| == |s.attempts| + 1
        && var a := s'.attempts[|s.attempts|];
           && s'.attempts == s.attempts + [a]
           && s'.received == s.received
           && s'.channel == s.channel + if a.sent then [a.e] else [])
  }

  lemma {:induction false} StepShape(s: System, step: Step)
    ensures EventShape(s, Apply(s, step))
  {
  }

  lemma {:induction false} DeliveredByShape(s: System, s': System)
    requires Delivered(s) && EventShape(s, s')
    ensures Delivered(s')
  {
    if s'.attempts != s.attempts {
      SentNext(s.attempts, s'.attempts[|s.attempts|]);
    } else if s'.channel != s.channel {
      assert s.channel == [s.channel[0]] + s.channel[1..];
    }
  }

  lemma {:induction false} DropsByStep(s: System, step: Step)
    requires LockGood(s.lock, s.emitters, s.emitClosed)
    requires DropsExcused(s.attempts) && DrainsAfterClose(s.emitters, s.closingCloses)
    ensures var s' := Apply(s, step); DropsExcused(s'.attempts) && DrainsAfterClose(s'.emitters, s'.closingCloses)
  {
    if step.Emit? || step.Lock? || step.Send? || step.SeeClosing? || step.TimeOut? {
      DropsByEmitter(s, step);
    } else {
      DropsByOther(s, step);
    }
  }

  lemma {:induction false} DropsByEmitter(s: System, step: Step)
    requires LockGood(s.lock, s.emitters, s.emitClosed)
    requires DropsExcused(s.attempts) && DrainsAfterClose(s.emitters, s.closingCloses)
    requires step.Emit? || step.Lock? || step.Send? || step.SeeClosing? || step.TimeOut?
    ensures var s' := Apply(s, step); DropsExcused(s'.attempts) && DrainsAfterClose(s'.emitters, s'.closingCloses)
  {
  }

  lemma {:induction false} DropsByOther(s: System, step: Step)
    requires DropsExcused(s.attempts) && DrainsAfterClose(s.emitters, s.closingCloses)
    requires !(step.Emit? || step.Lock? || step.Send? || step.SeeClosing? || step.TimeOut?)
    ensures var s' := Apply(s, step); DropsExcused(s'.attempts) && DrainsAfterClose(s'.emitters, s'.closingCloses)
  {
  }

  // -------------------------------------------------------------------- hooks

  ghost predicate Increasing(hooks: seq<nat>) {
    forall i, j :: 0 <= i < j < |hooks| ==> hooks[i] < hooks[j]
  }

  /** `hooks` lists exactly the hooks whose place is `p`, each once. */
  ghost predicate Lists(hooks: seq<nat>, places: seq<Place>, p: Place) {
    && Increasing(hooks)
    && (forall i :: 0 <= i < |hooks| ==> hooks[i] < |places| && places[hooks[i]] == p)
    && (forall h :: 0 <= h < |places| && places[h] == p ==> h in hooks)
  }

  ghost predicate RanOnce(ran: seq<nat>, places: seq<Place>) {
    && Distinct(ran)
    && (forall h :: 0 <= h < |places| ==> (places[h] == Ran <==> h in ran))
    && (forall i :: 0 <= i < |ran| ==> ran[i] < |places|)
  }

  ghost predicate TakenListed(closers: map<nat, Closer>, places: seq<Place>) {
    && (forall c :: c in closers && closers[c].Running? ==> Lists(closers[c].hooks, places, TakenBy(c)))
    && (forall h :: 0 <= h < |places| && places[h].TakenBy? ==>
          places[h].c in closers && closers[places[h].c].Running?)
  }

  ghost predicate HooksGood(s: System) {
    && Lists(s.onClose, s.places, Registered)
    && TakenListed(s.closers, s.places)
    && RanOnce(s.ran, s.places)
  }

  lemma {:induction false} HooksByOnClose(s: System)
    requires HooksGood(s)
    ensures HooksGood(Apply(s, OnClose))
  {
    var places := s.places + [Registered];
    assert Lists(s.onClose + [|s.places|], places, Registered) by {
      assert (s.onClose + [|s.places|])[|s.onClose|] == |s.places|;
      forall h | h in s.onClose ensures h in s.onClose + [|s.places|] {}
    }
    forall c | c in s.closers && s.closers[c].Running?
      ensures Lists(s.closers[c].hooks, places, TakenBy(c))
    {
      assert Lists(s.closers[c].hooks, s.places, TakenBy(c));
    }
  }

  lemma {:induction false} HooksByTake(s: System, c: nat)
    requires HooksGood(s)
    ensures HooksGood(Apply(s, TakeHooks(c)))
  {
    var s' := Apply(s, TakeHooks(c));
    if s' != s {
      assert Lists(s'.onClose, s'.places, Registered);
      assert Lists(s'.closers[c].hooks, s'.places, TakenBy(c));
      forall d | d in s'.closers && s'.closers[d].Running? && d != c
        ensures Lists(s'.closers[d].hooks, s'.places, TakenBy(d))
      {
        assert Lists(s.closers[d].hooks, s.places, TakenBy(d));
      }
    }
  }

  lemma {:induction false} ListsOthers(hooks: seq<nat>, places: seq<Place>, p: Place, h: nat, q: Place)
    requires Lists(hooks, places, p) && h < |places| && places[h] != p && q != p
    ensures Lists(hooks, places[h := q], p)
  {
  }

  lemma {:induction false} ListsRest(hooks: seq<nat>, places: seq<Place>, p: Place, q: Place)
    requires Lists(hooks, places, p) && hooks != [] && q != p
    ensures Lists(hooks[1..], places[hooks[0] := q], p)
  {
    forall h | 0 <= h < |places| && places[h] == p && h != hooks[0] ensures h in hooks[1..] {
      assert h in hooks;
      assert hooks == [hooks[0]] + hooks[1..];
    }
  }

  lemma {:induction false} RanOneMore(ran: seq<nat>, places: seq<Place>, h: nat)
    requires RanOnce(ran, places) && h < |places| && places[h] != Ran
    ensures RanOnce(ran + [h], places[h := Ran])
  {
    forall g | g in ran + [h] ensures g in ran || g == h {}
    assert (ran + [h])[|ran|] == h;
    forall g | g in ran ensures g in ran + [h] {}
  }

  lemma {:induction false} HooksByRun(s: System, c: nat)
    requires HooksGood(s)
    ensures HooksGood(Apply(s, RunHook(c)))
  {
    if c in s.closers && s.closers[c].Running? {
      var hooks := s.closers[c].hooks;
      assert Lists(hooks, s.places, TakenBy(c));
      if hooks != [] {
        var h := hooks[0];
        ListsOthers(s.onClose, s.places, Registered, h, Ran);
        ListsRest(hooks, s.places, TakenBy(c), Ran);
        RanOneMore(s.ran, s.places, h);
        forall d | d in s.closers && s.closers[d].Running? && d != c
          ensures Lists(s.closers[d].hooks, s.places[h := Ran], TakenBy(d))
        {
          ListsOthers(s.closers[d].hooks, s.places, TakenBy(d), h, Ran);
        }
      }
    }
  }

  lemma {:induction false} HooksByOther(s: System, step: Step)
    requires HooksGood(s) && !step.OnClose? && !step.TakeHooks? && !step.RunHook?
    ensures HooksGood(Apply(s, step))
  {
    OtherKeepsHooks(s, step);
    var s' := Apply(s, step);
    forall c | c in s'.closers && s'.closers[c].Running?
      ensures Lists(s'.closers[c].hooks, s'.places, TakenBy(c))
    {
      assert c in s.closers && s.closers[c] == s'.closers[c];
    }
  }

  /** A step that is not about hooks moves no hook and starts no runner. */
  lemma {:induction false} OtherKeepsHooks(s: System, step: Step)
    requires !step.OnClose? && !step.TakeHooks? && !step.RunHook?
    ensures var s' := Apply(s, step);
      && s'.onClose == s.onClose && s'.places == s.places && s'.ran == s.ran
      && forall c :: c in s'.closers && s'.closers[c].Running? ==> c in s.closers && s.closers[c] == s'.closers[c]
  {
    if step.Start? || step.EnterOnce? || step.CloseClosing? {
      CloserKeepsHooks(s, step);
    } else {
      EmitKeepsClosers(s, step);
    }
  }

  lemma {:induction false} CloserKeepsHooks(s: System, step: Step)
    requires step.Start? || step.EnterOnce? || step.CloseClosing?
    ensures var s' := Apply(s, step);
      && s'.onClose == s.onClose && s'.places == s.places && s'.ran == s.ran
      && forall c :: c in s'.closers && s'.closers[c].Running? ==> c in s.closers && s.closers[c] == s'.closers[c]
  {
  }

  lemma {:induction false} EmitKeepsClosers(s: System, step: Step)
    requires !step.Start? && !step.EnterOnce? && !step.CloseClosing? && !step.OnClose? && !step.TakeHooks? && !step.RunHook?
    ensures var s' := Apply(s, step);
      s'.onClose == s.onClose && s'.places == s.places && s'.ran == s.ran && s'.closers == s.closers
  {
  }

  // ------------------------------------------------------------------ theorems

  ghost predicate Inv(s: System) {
    && LockGood(s.lock, s.emitters, s.emitClosed)
    && ClosesGood(s) && OnceGood(s.once, s.closers)
    && Delivered(s)
    && DropsExcused(s.attempts) && DrainsAfterClose(s.emitters, s.closingCloses)
    && HooksGood(s)
  }

  lemma {:induction false} HooksByStep(s: System, step: Step)
    requires HooksGood(s)
    ensures HooksGood(Apply(s, step))
  {
    match step
    case OnClose => HooksByOnClose(s);
    case TakeHooks(c) => HooksByTake(s, c);
    case RunHook(c) => HooksByRun(s, c);
    case _ => HooksByOther(s, step);
  }

  lemma {:induction false} AlwaysInv(steps: seq<Step>)
    ensures Inv(Exec(steps))
  {
    if steps != [] {
      var s, step := Exec(steps[..|steps| - 1]), steps[|steps| - 1];
      AlwaysInv(steps[..|steps| - 1]);
      LockByStep(s, step);
      ClosesByStep(s, step);
      OnceByStep(s, step);
      StepShape(s, step);
      DeliveredByShape(s, Apply(s, step));
      DropsByStep(s, step);
      HooksByStep(s, step);
    }
  }

  /** Over all interleavings nothing is sent on the closed event channel, and
      `events`, `done` and `closing` are closed at most once each. */
  lemma {:induction false} ChannelsCloseOnce(steps: seq<Step>)
    ensures var s := Exec(steps);
      !s.panicked && s.eventsCloses <= 1 && s.doneCloses <= 1 && s.closingCloses <= 1
    ensures Exec(steps).doneCloses <= Exec(steps).eventsCloses
  {
    AlwaysInv(steps);
  }

  /** What the consumer gets are the events of the emits in the order in which
      they got the lock, minus drops; an event is dropped only when `closing` or
      the event channel was closed by then, and an exit event only when the
      channel was closed or its second wait timed out. */
  lemma {:induction false} DeliveredInOrder(steps: seq<Step>)
    ensures var s := Exec(steps);
      && s.received + s.channel == Sent(s.attempts)
      && DropsExcused(s.attempts)
  {
    AlwaysInv(steps);
  }

  /** Until Close, abort or the end of the process, no event is dropped. */
  lemma {:induction false} NothingDroppedWhileOpen(steps: seq<Step>)
    requires Exec(steps).closingCloses == 0 && !Exec(steps).emitClosed
    ensures var s := Exec(steps);
      && |s.received| + |s.channel| == |s.attempts|
      && forall i :: 0 <= i < |s.attempts| ==> (s.received + s.channel)[i] == s.attempts[i].e
  {
    AlwaysInv(steps);
    FlagsByRun(steps);
    SentAll(Exec(steps).attempts);
  }

  lemma {:induction false} SentAll(attempts: seq<Attempt>)
    requires forall i :: 0 <= i < |attempts| ==> attempts[i].sent
    ensures |Sent(attempts)| == |attempts|
    ensures forall i :: 0 <= i < |attempts| ==> Sent(attempts)[i] == attempts[i].e
  {
    if attempts != [] {
      SentAll(attempts[..|attempts| - 1]);
    }
  }

  /** The flags of the recorded attempts are not ahead of the state. */
  ghost predicate FlagsBehind(s: System) {
    forall i :: 0 <= i < |s.attempts| ==>
      (s.attempts[i].closing ==> s.closingCloses > 0) && (s.attempts[i].ended ==> s.emitClosed)
  }

  lemma {:induction false} FlagsByStep(s: System, step: Step)
    requires FlagsBehind(s)
    ensures FlagsBehind(Apply(s, step))
  {
  }

  lemma {:induction false} FlagsByRun(steps: seq<Step>)
    ensures FlagsBehind(Exec(steps))
  {
    if steps != [] {
      FlagsByRun(steps[..|steps| - 1]);
      FlagsByStep(Exec(steps[..|steps| - 1]), steps[|steps| - 1]);
    }
  }

  /** Each registered hook is in one place: still registered, in the hands of one
      closer, or run, and it runs at most once. */
  lemma {:induction false} HooksRunOnce(steps: seq<Step>, hook: nat)
    requires hook < |Exec(steps).places|
    ensures var s := Exec(steps);
      && Distinct(s.ran)
      && (hook in s.onClose <==> s.places[hook] == Registered)
      && (hook in s.ran <==> s.places[hook] == Ran)
      && (forall c :: c in s.closers && s.closers[c].Running? ==>
            (hook in s.closers[c].hooks <==> s.places[hook] == TakenBy(c)))
  {
    AlwaysInv(steps);
  }

  // ------------------------------------------------------- the place of the exit

  ghost predicate AllThrough(emitters: map<nat, Emitter>) {
    forall g :: g in emitters ==> emitters[g].Through?
  }

  ghost predicate NoNewEmit(steps: seq<Step>) {
    forall i :: 0 <= i < |steps| ==> !steps[i].Emit?
  }

  /** Nothing more can be sent: the channel is closed, or no emit is under way. */
  ghost predicate NothingToSend(s: System) {
    s.emitClosed || AllThrough(s.emitters)
  }

  lemma {:induction false} NothingIsSent(steps: seq<Step>, more: seq<Step>)
    requires NothingToSend(Exec(steps)) && NoNewEmit(more)
    ensures NothingToSend(Exec(steps + more))
    ensures Sent(Exec(steps + more).attempts) == Sent(Exec(steps).attempts)
  {
    if more == [] {
      assert steps + more == steps;
    } else {
      var before := steps + more[..|more| - 1];
      assert (steps + more)[..|steps + more| - 1] == before;
      NothingIsSent(steps, more[..|more| - 1]);
      AlwaysInv(before);
      NothingByStep(Exec(before), more[|more| - 1]);
    }
  }

  lemma {:induction false} NothingByStep(s: System, step: Step)
    requires NothingToSend(s) && !step.Emit? && LockGood(s.lock, s.emitters, s.emitClosed)
    ensures NothingToSend(Apply(s, step)) && Sent(Apply(s, step).attempts) == Sent(s.attempts)
  {
    var s' := Apply(s, step);
    NothingEnds(s, step);
    if s'.attempts != s.attempts {
      var a := s'.attempts[|s.attempts|];
      assert s'.attempts == s.attempts + [a] && !a.sent;
      SentNext(s.attempts, a);
    }
  }

  lemma {:induction false} NothingEnds(s: System, step: Step)
    requires NothingToSend(s) && !step.Emit? && LockGood(s.lock, s.emitters, s.emitClosed)
    ensures var s' := Apply(s, step);
      && NothingToSend(s')
      && (s'.attempts == s.attempts || exists a :: s'.attempts == s.attempts + [a] && !a.sent)
  {
  }

  /** An exit event is meant to be the last one. The last event that was sent stays
      the last one, as long as no new emit begins, if and only if the channel is
      closed or every emit that has begun is through. */
  lemma {:induction false} LastEventStaysLastIffNothingToSend(steps: seq<Step>)
    ensures NothingToSend(Exec(steps)) <==>
      forall more :: NoNewEmit(more) ==> Sent(Exec(steps + more).attempts) == Sent(Exec(steps).attempts)
  {
    AlwaysInv(steps);
    var s := Exec(steps);
    if NothingToSend(s) {
      forall more | NoNewEmit(more) ensures Sent(Exec(steps + more).attempts) == Sent(s.attempts) {
        NothingIsSent(steps, more);
      }
    } else {
      var g :| g in s.emitters && !s.emitters[g].Through?;
      EmitCanEnd(steps, g);
    }
  }

  lemma {:induction false} ExecMore(steps: seq<Step>, step: Step)
    ensures Exec(steps + [step]) == Apply(Exec(steps), step)
  {
    assert (steps + [step])[..|steps|] == steps;
  }

  /** While the channel is open, an emit that is under way can still send. */
  lemma {:induction false} EmitCanEnd(steps: seq<Step>, g: nat)
    requires Inv(Exec(steps)) && !Exec(steps).emitClosed
    requires g in Exec(steps).emitters && !Exec(steps).emitters[g].Through?
    ensures exists more :: NoNewEmit(more) && Sent(Exec(steps + more).attempts) != Sent(Exec(steps).attempts)
  {
    var s := Exec(steps);
    if s.lock.Some? {
      HolderCanEnd(steps);
    } else {
      var more := [Receive, Lock(g), Send(g)];
      ExecTwo(steps, Receive, Lock(g));
      ExecMore(steps + [Receive, Lock(g)], Send(g));
      assert steps + [Receive, Lock(g)] + [Send(g)] == steps + more;
      WaiterSends(s, g);
      assert NoNewEmit(more);
    }
  }

  lemma {:induction false} HolderCanEnd(steps: seq<Step>)
    requires Inv(Exec(steps)) && !Exec(steps).emitClosed && Exec(steps).lock.Some?
    ensures exists more :: NoNewEmit(more) && Sent(Exec(steps + more).attempts) != Sent(Exec(steps).attempts)
  {
    var s := Exec(steps);
    var more := [Receive, Send(s.lock.value)];
    ExecTwo(steps, Receive, Send(s.lock.value));
    HolderSends(s);
    assert NoNewEmit(more);
  }

  lemma {:induction false} ExecTwo(steps: seq<Step>, a: Step, b: Step)
    ensures Exec(steps + [a, b]) == Apply(Apply(Exec(steps), a), b)
  {
    ExecMore(steps, a);
    ExecMore(steps + [a], b);
    assert steps + [a] + [b] == steps + [a, b];
  }

  lemma {:induction false} SendAddsOne(s: System, g: nat)
    requires Emits(s, g) && s.eventsCloses == 0 && |s.channel| < CAPACITY
    ensures |Sent(Apply(s, Send(g)).attempts)| == |Sent(s.attempts)| + 1
  {
    var a := Apply(s, Send(g)).attempts[|s.attempts|];
    assert Apply(s, Send(g)).attempts == s.attempts + [a] && a.sent;
    SentNext(s.attempts, a);
  }

  lemma {:induction false} HolderSends(s: System)
    requires Inv(s) && !s.emitClosed && s.lock.Some?
    ensures |Sent(Apply(Apply(s, Receive), Send(s.lock.value)).attempts)| == |Sent(s.attempts)| + 1
  {
    SendAddsOne(Apply(s, Receive), s.lock.value);
  }

  lemma {:induction false} WaiterSends(s: System, g: nat)
    requires Inv(s) && !s.emitClosed && s.lock == None && g in s.emitters && !s.emitters[g].Through?
    ensures |Sent(Apply(Apply(Apply(s, Receive), Lock(g)), Send(g)).attempts)| == |Sent(s.attempts)| + 1
  {
    SendAddsOne(Apply(Apply(s, Receive), Lock(g)), g);
  }

  /** So an exit event need not be the last: an emit that waits for the lock
      while the exit event is sent comes after it. */
  lemma ExitNeedNotBeLast(exit: Event, late: Event)
    requires exit.isExit
    ensures Exec([Emit(0, exit), Emit(1, late), Lock(0), Send(0), Lock(1), Send(1)]).channel == [exit, late]
  {
    var s2 := INITIAL.(emitters := map[0 := Ready(exit), 1 := Ready(late)]);
    ExecMore([], Emit(0, exit));
    ExecMore([Emit(0, exit)], Emit(1, late));
    var r2 := [Emit(0, exit), Emit(1, late)];
    assert [Emit(0, exit)] + [Emit(1, late)] == r2;
    assert Exec(r2) == s2;
    SendsNext(r2, 0, exit);
    var r4 := r2 + [Lock(0), Send(0)];
    SendsNext(r4, 1, late);
    assert r4 + [Lock(1), Send(1)] == [Emit(0, exit), Emit(1, late), Lock(0), Send(0), Lock(1), Send(1)];
  }

  lemma {:induction false} SendsNext(steps: seq<Step>, g: nat, e: Event)
    requires var s := Exec(steps);
      && s.lock == None && s.eventsCloses == 0 && !s.emitClosed && |s.channel| < CAPACITY
      && g in s.emitters && s.emitters[g] == Ready(e)
    ensures var s, s' := Exec(steps), Exec(steps + [Lock(g), Send(g)]);
      && s'.lock == None && s'.eventsCloses == 0 && !s'.emitClosed
      && s'.channel == s.channel + [e]
      && s'.emitters == s.emitters[g := Through]
  {
    ExecMore(steps, Lock(g));
    ExecMore(steps + [Lock(g)], Send(g));
    assert steps + [Lock(g)] + [Send(g)] == steps + [Lock(g), Send(g)];
  }
}
