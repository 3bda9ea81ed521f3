/** What comes of the emits and closes of internal/wire/wire.go: nobody is stuck, events
    with room are sent, and a closer runs every hook. */
module LifecycleProgress {
  import opened Collections
  import opened Lifecycle

  // ------------------------------------------------------------------ one emit

  /** An emit waits for the lock, and the lock is free. */
  ghost predicate CanLock(s: System, g: nat) {
    g in s.emitters && s.emitters[g].Ready? && s.lock == None
  }

  /** While the channel is open and has room, an emit that gets the lock sends its event
      behind all others. */
  lemma {:induction false} EmitSends(steps: seq<Step>, g: nat)
    requires CanLock(Exec(steps), g) && !Exec(steps).emitClosed && |Exec(steps).channel| < 256
    ensures var s, s' := Exec(steps), Exec(steps + [Lock(g), Send(g)]);
      var e := s.emitters[g].e;
      && s'.channel == s.channel + [e] && Sent(s'.attempts) == Sent(s.attempts) + [e]
      && s'.emitters == s.emitters[g := Through] && s'.lock == None
  {
    AlwaysInv(steps);
    ExecTwo(steps, Lock(g), Send(g));
    Selects(Exec(steps), g);
    SelectSends(Apply(Exec(steps), Lock(g)), g, Exec(steps).emitters[g].e);
  }

  lemma {:induction false} SelectSends(s: System, g: nat, e: Event)
    requires g in s.emitters && s.emitters[g] == Selecting(e) && s.eventsCloses == 0 && |s.channel| < 256
    ensures var s' := Apply(s, Send(g));
      && s'.channel == s.channel + [e] && Sent(s'.attempts) == Sent(s.attempts) + [e]
      && s'.emitters == s.emitters[g := Through] && s'.lock == None
  {
    SentNext(s.attempts, Attempt(e, true, false, s.closingCloses > 0, s.emitClosed));
  }

  /** After the end it drops its event. */
  lemma {:induction false} LateEmitIsDropped(steps: seq<Step>, g: nat)
    requires CanLock(Exec(steps), g) && Exec(steps).emitClosed
    ensures var s, s' := Exec(steps), Exec(steps + [Lock(g)]);
      && s'.channel == s.channel && Sent(s'.attempts) == Sent(s.attempts)
      && s'.emitters == s.emitters[g := Through] && s'.lock == None
  {
    var s := Exec(steps);
    ExecMore(steps, Lock(g));
    SentNext(s.attempts, Attempt(s.emitters[g].e, false, false, s.closingCloses > 0, true));
  }

  /** After Close it may drop any event but the exit, which it goes on waiting with. */
  lemma {:induction false} CloseUnblocksEmit(steps: seq<Step>, g: nat)
    requires CanLock(Exec(steps), g) && !Exec(steps).emitClosed && Exec(steps).closingCloses > 0
    ensures var s, s' := Exec(steps), Exec(steps + [Lock(g), SeeClosing(g)]);
      var e := s.emitters[g].e;
      && s'.channel == s.channel && Sent(s'.attempts) == Sent(s.attempts)
      && s'.emitters == s.emitters[g := if e.isExit then Draining(e) else Through]
  {
    ExecTwo(steps, Lock(g), SeeClosing(g));
    Selects(Exec(steps), g);
    SelectSeesClosing(Apply(Exec(steps), Lock(g)), g, Exec(steps).emitters[g].e);
  }

  lemma {:induction false} Selects(s: System, g: nat)
    requires CanLock(s, g) && !s.emitClosed
    ensures Apply(s, Lock(g)) == s.(lock := Some(g), emitters := s.emitters[g := Selecting(s.emitters[g].e)])
  {
  }

  lemma {:induction false} SelectSeesClosing(s: System, g: nat, e: Event)
    requires g in s.emitters && s.emitters[g] == Selecting(e) && s.closingCloses > 0
    ensures var s' := Apply(s, SeeClosing(g));
      && s'.channel == s.channel && Sent(s'.attempts) == Sent(s.attempts)
      && s'.emitters == s.emitters[g := if e.isExit then Draining(e) else Through]
  {
    SentNext(s.attempts, Attempt(e, false, false, true, s.emitClosed));
  }

  /** The exit event that waits after Close goes out as soon as there is room. */
  lemma {:induction false} ExitStillSent(steps: seq<Step>, g: nat)
    requires g in Exec(steps).emitters && Exec(steps).emitters[g].Draining? && |Exec(steps).channel| < 256
    ensures var s, s' := Exec(steps), Exec(steps + [Send(g)]);
      && s.emitters[g].e.isExit && s'.channel == s.channel + [s.emitters[g].e]
      && Sent(s'.attempts) == Sent(s.attempts) + [s.emitters[g].e] && s'.emitters[g] == Through
  {
    var s := Exec(steps);
    AlwaysInv(steps);
    ExecMore(steps, Send(g));
    SentNext(s.attempts, Attempt(s.emitters[g].e, true, false, s.closingCloses > 0, s.emitClosed));
  }

  // ------------------------------------------------------------- nobody is stuck

  /** All steps but those that begin something new. */
  predicate Goes(step: Step) {
    !step.Emit? && !step.Start? && !step.OnClose?
  }

  ghost predicate Quiet(s: System) {
    forall step :: Goes(step) ==> Apply(s, step) == s
  }

  /** While closeOnce is busy a closer is inside. */
  ghost predicate BusyInside(once: Once, closers: map<nat, Closer>) {
    once == Busy ==> exists c :: c in closers && closers[c] == Inside
  }

  lemma {:induction false} BusyByShape(s: System, s': System, step: Step)
    requires BusyInside(s.once, s.closers) && OnceGood(s.once, s.closers) && s' == Apply(s, step)
    ensures BusyInside(s'.once, s'.closers)
  {
    if s'.once == Busy {
      if s.once == Busy {
        var c :| c in s.closers && s.closers[c] == Inside;
        InsideStays(s, step, c);
      } else {
        BusyByEntering(s, step);
      }
    }
  }

  lemma {:induction false} InsideStays(s: System, step: Step, c: nat)
    requires c in s.closers && s.closers[c] == Inside
    requires OnceGood(s.once, s.closers) && Apply(s, step).once == Busy
    ensures c in Apply(s, step).closers && Apply(s, step).closers[c] == Inside
  {
  }

  lemma {:induction false} BusyByEntering(s: System, step: Step)
    requires s.once != Busy && Apply(s, step).once == Busy
    ensures step.EnterOnce? && step.c in Apply(s, step).closers && Apply(s, step).closers[step.c] == Inside
  {
  }

  lemma {:induction false} AlwaysBusyInside(steps: seq<Step>)
    ensures BusyInside(Exec(steps).once, Exec(steps).closers)
  {
    if steps != [] {
      var s := Exec(steps[..|steps| - 1]);
      AlwaysBusyInside(steps[..|steps| - 1]);
      AlwaysInv(steps[..|steps| - 1]);
      BusyByShape(s, Exec(steps), steps[|steps| - 1]);
    }
  }

  lemma {:induction false} HolderMoves(s: System)
    requires LockGood(s.lock, s.emitters, s.emitClosed) && ClosesGood(s) && s.lock.Some? && s.channel == []
    ensures Goes(Send(s.lock.value)) && Apply(s, Send(s.lock.value)) != s
  {
    assert Apply(s, Send(s.lock.value)).lock == None;
  }

  lemma {:induction false} QuietFreesTheLock(s: System)
    requires LockGood(s.lock, s.emitters, s.emitClosed) && ClosesGood(s) && Quiet(s)
    ensures s.lock == None && s.channel == [] && AllThrough(s.emitters) && s.finish == AllClosed
  {
    assert Apply(s, Receive) == s;
    if s.lock.Some? {
      HolderMoves(s);
    }
    forall g | g in s.emitters ensures s.emitters[g].Through? {
      assert Apply(s, Lock(g)) == s;
    }
    assert Apply(s, FinishEvents) == s;
    assert Apply(s, FinishDone) == s;
  }

  lemma {:induction false} QuietReturnsClosers(s: System)
    requires HooksGood(s) && BusyInside(s.once, s.closers) && Quiet(s) && s.lock == None
    ensures forall c :: c in s.closers ==> s.closers[c] == Returned
  {
    forall c | c in s.closers ensures s.closers[c] != Inside {
      assert Apply(s, CloseClosing(c)) == s;
    }
    forall c | c in s.closers ensures s.closers[c] == Returned {
      assert Apply(s, EnterOnce(c)) == s;
      assert Apply(s, TakeHooks(c)) == s;
      assert Apply(s, RunHook(c)) == s;
      assert s.closers[c].Running? ==> Lists(s.closers[c].hooks, s.places, TakenBy(c));
    }
  }

  /** Nobody waits for good: when nothing can move any more, every emit is through, every
      close has returned, the consumer has read all, the channels are closed, and no
      hook is left in anyone's hands. */
  lemma {:induction false} NobodyIsStuck(steps: seq<Step>)
    requires Quiet(Exec(steps))
    ensures var s := Exec(steps);
      && AllThrough(s.emitters) && (forall c :: c in s.closers ==> s.closers[c] == Returned)
      && s.channel == [] && s.received == Sent(s.attempts) && s.eventsCloses == 1 && s.doneCloses == 1
      && forall h :: 0 <= h < |s.places| ==> s.places[h] == Registered || s.places[h] == Ran
  {
    var s := Exec(steps);
    AlwaysInv(steps);
    AlwaysBusyInside(steps);
    QuietFreesTheLock(s);
    assert forall h :: 0 <= h < |s.places| && s.places[h].TakenBy? ==>
      s.places[h].c in s.closers && s.closers[s.places[h].c].Running?;
    QuietReturnsClosers(s);
    assert s.received + [] == s.received;
  }

  // ---------------------------------------------------------------------- hooks

  /** A hook that a closer took stays with it until it has run. */
  ghost predicate KeptOrRan(before: seq<Place>, after: seq<Place>, c: nat) {
    && |before| <= |after|
    && forall h :: 0 <= h < |before| && (before[h] == TakenBy(c) || before[h] == Ran) ==>
         after[h] == TakenBy(c) || after[h] == Ran
  }

  lemma {:induction false} KeptByStep(before: seq<Place>, s: System, step: Step, c: nat)
    requires KeptOrRan(before, s.places, c)
    ensures KeptOrRan(before, Apply(s, step).places, c)
  {
  }

  lemma {:induction false} KeptByRun(steps: seq<Step>, more: seq<Step>, c: nat)
    ensures KeptOrRan(Exec(steps).places, Exec(steps + more).places, c)
  {
    if more == [] {
      assert steps + more == steps;
    } else {
      var n := |more| - 1;
      KeptByRun(steps, more[..n], c);
      assert (steps + more)[..|steps + more| - 1] == steps + more[..n];
      KeptByStep(Exec(steps).places, Exec(steps + more[..n]), more[n], c);
    }
  }

  /** When a closer has returned, every hook that was registered as it took them has run,
      whatever went on between. */
  lemma {:induction false} CloserRunsEveryHook(steps: seq<Step>, c: nat, more: seq<Step>, hook: nat)
    requires c in Exec(steps).closers && Exec(steps).closers[c] == Awaiting && Exec(steps).lock == None
    requires c in Exec(steps + [TakeHooks(c)] + more).closers && Exec(steps + [TakeHooks(c)] + more).closers[c] == Returned
    requires hook < |Exec(steps).places| && Exec(steps).places[hook] == Registered
    ensures hook in Exec(steps + [TakeHooks(c)] + more).ran
  {
    var taken := steps + [TakeHooks(c)];
    var s := Exec(taken + more);
    ExecMore(steps, TakeHooks(c));
    KeptByRun(taken, more, c);
    AlwaysInv(taken + more);
    assert TakenListed(s.closers, s.places);
  }
}
