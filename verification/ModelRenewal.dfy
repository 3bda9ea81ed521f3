/** InvalidateModels of models.go against flights that are under way: when the answers
    behind an invalidation are newer than it. */
module ModelRenewal {
  import opened Collections
  import opened ModelCache

  /** A probe of k started in these marks, and then one ended with this result. */
  ghost predicate IsNew(tail: seq<Mark>, k: Key, r: (seq<string>, Option<string>)) {
    exists j :: 0 <= j < |tail| && tail[j] == ProbeEnded(k, r.0, r.1) && Starts(tail[..j], k)
  }

  ghost predicate Starts(marks: seq<Mark>, k: Key) {
    exists i :: 0 <= i < |marks| && marks[i].ProbeStarted? && marks[i].key == k
  }

  /** The caller probes, or has a result in its flight that it did not answer with yet. */
  predicate Holds(phase: Phase) {
    Probes(phase) || phase.Publishing? || phase.Leaving?
  }

  function ResultOf(e: Entry): (seq<string>, Option<string>) {
    (e.models, e.err)
  }

  ghost predicate PhaseIsNew(tail: seq<Mark>, c: Caller, early: bool) {
    && (c.phase.Probing? ==> Starts(tail, c.key))
    && (!c.phase.Probing? && (Holds(c.phase) || (c.phase.Answered? && !early)) ==>
          IsNew(tail, c.key, Result(c.phase).value))
  }

  ghost predicate OutcomeIsNew(tail: seq<Mark>, c: Caller, outcomes: map<nat, Entry>, early: bool) {
    !early && c.phase.Waiting? && c.phase.leader in outcomes ==>
      IsNew(tail, c.key, ResultOf(outcomes[c.phase.leader]))
  }

  ghost predicate ModelsAreNew(tail: seq<Mark>, models: map<Key, Entry>, harness: string) {
    forall k :: k in models && k.harness == harness ==> IsNew(tail, k, ResultOf(models[k]))
  }

  /** Since the invalidation, the flights of the harness and the cache hold results of
      new probes alone, and so do the callers that came since. */
  ghost predicate Renewed(s: System, tail: seq<Mark>, harness: string, early: set<nat>) {
    && ModelsAreNew(tail, s.models, harness)
    && (forall g :: g in s.callers && s.callers[g].key.harness == harness ==>
          && PhaseIsNew(tail, s.callers[g], g in early)
          && OutcomeIsNew(tail, s.callers[g], s.outcomes, g in early))
  }

  lemma {:induction false} NewGrows(tail: seq<Mark>, m: Mark)
    ensures forall k :: Starts(tail, k) ==> Starts(tail + [m], k)
    ensures forall k, r :: IsNew(tail, k, r) ==> IsNew(tail + [m], k, r)
    ensures m.ProbeStarted? ==> Starts(tail + [m], m.key)
    ensures m.ProbeEnded? && Starts(tail, m.key) ==> IsNew(tail + [m], m.key, (m.models, m.err))
  {
    var now := tail + [m];
    forall k | Starts(tail, k) ensures Starts(now, k) {
      var i :| 0 <= i < |tail| && tail[i].ProbeStarted? && tail[i].key == k;
      assert now[i] == tail[i];
    }
    forall k, r | IsNew(tail, k, r) ensures IsNew(now, k, r) {
      var j :| 0 <= j < |tail| && tail[j] == ProbeEnded(k, r.0, r.1) && Starts(tail[..j], k);
      assert now[j] == tail[j] && now[..j] == tail[..j];
    }
    assert now[|tail|] == m && now[..|tail|] == tail;
  }

  /** The marks are the same ones, or one more. */
  predicate Extends(was: seq<Mark>, now: seq<Mark>) {
    now == was || (|now| == |was| + 1 && now[..|was|] == was)
  }

  lemma {:induction false} NewStays(tail: seq<Mark>, tail': seq<Mark>)
    requires Extends(tail, tail')
    ensures forall k :: Starts(tail, k) ==> Starts(tail', k)
    ensures forall k, r :: IsNew(tail, k, r) ==> IsNew(tail', k, r)
  {
    if tail' != tail {
      assert tail' == tail + [tail'[|tail|]];
      NewGrows(tail, tail'[|tail|]);
    }
  }

  // ------------------------------------------------------------------ one action

  /** What an action of caller g does to its phase, as far as results go. */
  ghost predicate PhaseShape(s: System, s': System, g: nat)
    requires g in s.callers && g in s'.callers
  {
    var k, before, after := s.callers[g].key, s.callers[g].phase, s'.callers[g].phase;
    || after == before
    || after.Missed? || after.Leading?
    || (after.Probing? && s'.log == s.log + [ProbeStarted(k, s.now)])
    || (before.Probing? && after.Probed? && s'.log == s.log + [ProbeEnded(k, after.models, after.err)])
    || (Holds(before) && !before.Probing? && Result(after) == Result(before) && Result(after).Some? && !after.Probing?)
    || (k in s.models && (after.Publishing? || after.Answered?) && Result(after) == Some(ResultOf(s.models[k])))
    || (before.Waiting? && before.leader in s.outcomes && after == Answered(s.outcomes[before.leader]))
    || (k in s.calls && after == Waiting(s.calls[k]))
  }

  ghost predicate StoreShape(s: System, s': System, g: nat)
    requires g in s.callers
  {
    var k, before := s.callers[g].key, s.callers[g].phase;
    && (s'.models == s.models || (before.Storing? && s'.models == s.models[k := before.entry]))
    && (s'.outcomes == s.outcomes || (before.Publishing? && s'.outcomes == s.outcomes[g := before.entry]))
    && Extends(s.log, s'.log)
  }

  lemma {:induction false} ActPhase(s: System, g: nat, a: Action, ttl: nat)
    requires g in s.callers
    ensures g in ActOn(s, g, a, ttl).callers && PhaseShape(s, ActOn(s, g, a, ttl), g)
  {
  }

  lemma {:induction false} ActStore(s: System, g: nat, a: Action, ttl: nat)
    requires g in s.callers
    ensures StoreShape(s, ActOn(s, g, a, ttl), g)
  {
  }

  /** The marks behind the first n. */
  function Tail(s: System, n: nat): seq<Mark> {
    if n <= |s.log| then s.log[n..] else []
  }

  lemma {:induction false} TailExtends(s: System, s': System, n: nat)
    requires n <= |s.log| && Extends(s.log, s'.log)
    ensures n <= |s'.log| && Extends(Tail(s, n), Tail(s', n))
    ensures forall m :: s'.log == s.log + [m] ==> Tail(s', n) == Tail(s, n) + [m]
  {
    if s'.log != s.log {
      assert s'.log == s.log + [s'.log[|s.log|]];
      assert Tail(s', n)[..|s.log| - n] == Tail(s, n);
    }
  }

  lemma {:induction false} SelfRenews(s: System, s': System, n: nat, harness: string, early: set<nat>, g: nat)
    requires g in s.callers && g in s'.callers && s'.callers[g].key == s.callers[g].key
    requires n <= |s.log| && Renewed(s, Tail(s, n), harness, early) && s.callers[g].key.harness == harness
    requires PhaseShape(s, s', g) && StoreShape(s, s', g)
    ensures PhaseIsNew(Tail(s', n), s'.callers[g], g in early)
  {
    var k := s.callers[g].key;
    TailExtends(s, s', n);
    NewStays(Tail(s, n), Tail(s', n));
    if s'.log != s.log {
      NewGrows(Tail(s, n), s'.log[|s.log|]);
    }
    SelfHas(s, Tail(s, n), harness, early, g);
  }

  lemma {:induction false} SelfHas(s: System, tail: seq<Mark>, harness: string, early: set<nat>, g: nat)
    requires g in s.callers && Renewed(s, tail, harness, early) && s.callers[g].key.harness == harness
    ensures var k := s.callers[g].key;
      && (k in s.models ==> IsNew(tail, k, ResultOf(s.models[k])))
      && PhaseIsNew(tail, s.callers[g], g in early) && OutcomeIsNew(tail, s.callers[g], s.outcomes, g in early)
  {
  }

  /** A flight that can be joined, and whose outcome is out already, is one that leaves. */
  lemma {:induction false} LeavingIsNew(s: System, tail: seq<Mark>, harness: string, early: set<nat>, k: Key)
    requires OneFlightPerKey(s.calls, s.callers) && Published(s.callers, s.outcomes)
    requires Renewed(s, tail, harness, early) && k in s.calls && k.harness == harness
    ensures s.calls[k] in s.outcomes ==> IsNew(tail, k, ResultOf(s.outcomes[s.calls[k]]))
  {
    var l := s.calls[k];
    assert l in s.callers && s.callers[l].key == k && Leads(s.callers[l].phase);
    if l in s.outcomes {
      assert s.callers[l].phase == Leaving(s.outcomes[l]);
      assert PhaseIsNew(tail, s.callers[l], l in early);
    }
  }

  lemma {:induction false} JoinsNew(s: System, s': System, n: nat, harness: string, early: set<nat>, g: nat)
    requires g in s.callers && g in s'.callers && s'.callers[g].key == s.callers[g].key
    requires n <= |s.log| && Renewed(s, Tail(s, n), harness, early) && s.callers[g].key.harness == harness
    requires OneFlightPerKey(s.calls, s.callers) && Published(s.callers, s.outcomes)
    requires PhaseShape(s, s', g) && StoreShape(s, s', g) && s'.callers[g].phase.Waiting?
    ensures OutcomeIsNew(Tail(s', n), s'.callers[g], s'.outcomes, g in early)
  {
    var before, after := s.callers[g].phase, s'.callers[g].phase;
    TailExtends(s, s', n);
    NewStays(Tail(s, n), Tail(s', n));
    assert OutcomeIsNew(Tail(s, n), s.callers[g], s.outcomes, g in early);
    if after != before {
      LeavingIsNew(s, Tail(s, n), harness, early, s.callers[g].key);
    }
  }

  lemma {:induction false} OtherRenews(s: System, s': System, n: nat, harness: string, early: set<nat>, g: nat, f: nat)
    requires g in s.callers && f in s.callers && f in s'.callers && s'.callers[f] == s.callers[f] && f != g
    requires n <= |s.log| && Renewed(s, Tail(s, n), harness, early) && s.callers[f].key.harness == harness
    requires FlightsGood(s) && StoreShape(s, s', g)
    ensures PhaseIsNew(Tail(s', n), s'.callers[f], f in early)
    ensures OutcomeIsNew(Tail(s', n), s'.callers[f], s'.outcomes, f in early)
  {
    TailExtends(s, s', n);
    NewStays(Tail(s, n), Tail(s', n));
    if s.callers[f].phase.Waiting? && s.callers[f].phase.leader == g {
      assert s.callers[g].key == s.callers[f].key;
    }
  }

  lemma {:induction false} ModelsRenew(s: System, s': System, n: nat, harness: string, early: set<nat>, g: nat)
    requires g in s.callers && n <= |s.log| && Renewed(s, Tail(s, n), harness, early) && StoreShape(s, s', g)
    ensures ModelsAreNew(Tail(s', n), s'.models, harness)
  {
    TailExtends(s, s', n);
    NewStays(Tail(s, n), Tail(s', n));
  }

  lemma {:induction false} RenewedByAct(s: System, n: nat, harness: string, early: set<nat>, g: nat, a: Action, ttl: nat)
    requires FlightsGood(s) && n <= |s.log| && Renewed(s, Tail(s, n), harness, early) && g in s.callers
    ensures var s' := ActOn(s, g, a, ttl); n <= |s'.log| && Renewed(s', Tail(s', n), harness, early)
  {
    var s' := ActOn(s, g, a, ttl);
    ActMoves(s, g, a, ttl);
    ActPhase(s, g, a, ttl);
    ActStore(s, g, a, ttl);
    ModelsRenew(s, s', n, harness, early, g);
    forall f | f in s'.callers && s'.callers[f].key.harness == harness
      ensures PhaseIsNew(Tail(s', n), s'.callers[f], f in early) && OutcomeIsNew(Tail(s', n), s'.callers[f], s'.outcomes, f in early)
    {
      if f == g {
        SelfRenews(s, s', n, harness, early, g);
        if s'.callers[g].phase.Waiting? {
          JoinsNew(s, s', n, harness, early, g);
        }
      } else {
        OtherRenews(s, s', n, harness, early, g, f);
      }
    }
  }

  lemma {:induction false} RenewedByOther(s: System, n: nat, harness: string, early: set<nat>, step: Step, ttl: nat)
    requires n <= |s.log| && Renewed(s, Tail(s, n), harness, early) && !step.Act?
    requires forall g :: g in early ==> g in s.callers
    ensures var s' := Apply(s, step, ttl); n <= |s'.log| && Renewed(s', Tail(s', n), harness, early)
  {
    var s' := Apply(s, step, ttl);
    TailExtends(s, s', n);
    NewStays(Tail(s, n), Tail(s', n));
  }

  // ---------------------------------------------------------------------- any run

  function Run(s: System, steps: seq<Step>, ttl: nat): System {
    if steps == [] then s else Apply(Run(s, steps[..|steps| - 1], ttl), steps[|steps| - 1], ttl)
  }

  lemma {:induction false} ExecIsRun(a: seq<Step>, b: seq<Step>, ttl: nat)
    ensures Exec(a + b, ttl) == Run(Exec(a, ttl), b, ttl)
  {
    if b == [] {
      assert a + b == a;
    } else {
      ExecIsRun(a, b[..|b| - 1], ttl);
      assert (a + b)[..|a + b| - 1] == a + b[..|b| - 1];
    }
  }

  lemma {:induction false} CallersStay(s: System, step: Step, ttl: nat)
    ensures forall g :: g in s.callers ==> g in Apply(s, step, ttl).callers && Apply(s, step, ttl).callers[g].key == s.callers[g].key
  {
    if step.Act? && step.g in s.callers {
      ActMoves(s, step.g, step.action, ttl);
    }
  }

  /** Renewed since the first n marks, when `early` had come. */
  ghost predicate RenewedSince(s: System, n: nat, harness: string, early: set<nat>) {
    && n <= |s.log| && Renewed(s, Tail(s, n), harness, early)
    && forall g :: g in early ==> g in s.callers
  }

  lemma {:induction false} RenewedAlways(steps: seq<Step>, more: seq<Step>, n: nat, harness: string, early: set<nat>, ttl: nat)
    requires RenewedSince(Exec(steps, ttl), n, harness, early)
    ensures RenewedSince(Exec(steps + more, ttl), n, harness, early)
  {
    if more == [] {
      assert steps + more == steps;
    } else {
      var before, step := more[..|more| - 1], more[|more| - 1];
      RenewedAlways(steps, before, n, harness, early, ttl);
      RenewedOnceMore(steps + before, step, n, harness, early, ttl);
      assert (steps + before) + [step] == steps + more;
    }
  }

  lemma {:induction false} RenewedOnceMore(steps: seq<Step>, step: Step, n: nat, harness: string, early: set<nat>, ttl: nat)
    requires RenewedSince(Exec(steps, ttl), n, harness, early)
    ensures RenewedSince(Exec(steps + [step], ttl), n, harness, early)
  {
    assert (steps + [step])[..|steps|] == steps;
    GoodFlights(steps, ttl);
    RenewedByStep(Exec(steps, ttl), n, harness, early, step, ttl);
  }

  lemma {:induction false} GoodFlights(steps: seq<Step>, ttl: nat)
    ensures FlightsGood(Exec(steps, ttl))
  {
    AlwaysGood(steps, ttl);
  }

  lemma {:induction false} RenewedByStep(s: System, n: nat, harness: string, early: set<nat>, step: Step, ttl: nat)
    requires FlightsGood(s) && RenewedSince(s, n, harness, early)
    ensures RenewedSince(Apply(s, step, ttl), n, harness, early)
  {
    CallersStay(s, step, ttl);
    if step.Act? && step.g in s.callers {
      RenewedByAct(s, n, harness, early, step.g, step.action, ttl);
    } else if !step.Act? {
      RenewedByOther(s, n, harness, early, step, ttl);
    }
  }

  /** Whatever comes behind this invalidation, each answer of a caller that came since
      is the result of a probe that was started since. */
  ghost predicate AnswersAreNew(steps: seq<Step>, harness: string, ttl: nat) {
    forall more, g ::
      var s, s' := Exec(steps + [Invalidate(harness)], ttl), Exec(steps + [Invalidate(harness)] + more, ttl);
      g in s'.callers && g !in s.callers && s'.callers[g].key.harness == harness && s'.callers[g].phase.Answered? ==>
        IsNew(Tail(s', |s.log|), s'.callers[g].key, ResultOf(s'.callers[g].phase.entry))
  }

  /** No flight of the harness has a probe under way or its result in hand. */
  predicate Quiet(s: System, harness: string) {
    forall g :: g in s.callers && s.callers[g].key.harness == harness ==> !Holds(s.callers[g].phase)
  }

  lemma {:induction false} InvalidateStep(steps: seq<Step>, harness: string, ttl: nat)
    ensures var s, s' := Exec(steps, ttl), Exec(steps + [Invalidate(harness)], ttl);
      && s' == Apply(s, Invalidate(harness), ttl) && Tail(s', |s'.log|) == []
  {
    assert (steps + [Invalidate(harness)])[..|steps|] == steps;
  }

  lemma {:induction false} QuietIsEnough(steps: seq<Step>, harness: string, ttl: nat)
    requires Quiet(Exec(steps, ttl), harness)
    ensures AnswersAreNew(steps, harness, ttl)
  {
    var start := steps + [Invalidate(harness)];
    var s := Exec(start, ttl);
    InvalidateStep(steps, harness, ttl);
    var early := set g | g in s.callers;
    assert Renewed(s, [], harness, early);
    forall more, g | g in Exec(start + more, ttl).callers && g !in s.callers
                     && Exec(start + more, ttl).callers[g].key.harness == harness
                     && Exec(start + more, ttl).callers[g].phase.Answered?
      ensures IsNew(Tail(Exec(start + more, ttl), |s.log|), Exec(start + more, ttl).callers[g].key,
                    ResultOf(Exec(start + more, ttl).callers[g].phase.entry))
    {
      RenewedAlways(start, more, |s.log|, harness, early, ttl);
      assert PhaseIsNew(Tail(Exec(start + more, ttl), |s.log|), Exec(start + more, ttl).callers[g], g in early);
    }
  }

  // ------------------------------------------------------------- the late joiner

  /** Caller f waits for g, which holds a result or a probe, and no probe started since. */
  ghost predicate WaitsOld(s: System, n: nat, f: nat, g: nat) {
    && f in s.callers && g in s.callers && f != g
    && s.callers[f].phase == Waiting(g) && s.callers[f].key == s.callers[g].key
    && Holds(s.callers[g].phase) && (s.callers[g].phase.Leaving? ==> g in s.outcomes)
    && n <= |s.log| && (forall m :: m in Tail(s, n) ==> !m.ProbeStarted?)
  }

  /** How far a flight is. */
  function Rank(phase: Phase): nat {
    match phase
    case Probing => 0
    case Probed(_, _) => 1
    case Storing(_) => 2
    case Publishing(_) => 3
    case _ => 4
  }

  /** The actions that bring a flight on. */
  function Next(i: nat): Action {
    if i == 0 then ProbeReturns([], None) else if i == 1 then Stamp else if i == 2 then Store else Publish
  }

  lemma {:induction false} NextMoves(s: System, g: nat, i: nat, ttl: nat)
    requires g in s.callers && i <= 3 && Holds(s.callers[g].phase) && Rank(s.callers[g].phase) >= i
    requires s.callers[g].phase.Leaving? ==> g in s.outcomes
    ensures var s' := Apply(s, Act(g, Next(i)), ttl);
      && g in s'.callers && s'.callers == Moved(s.callers, g, s'.callers[g].phase)
      && Holds(s'.callers[g].phase) && Rank(s'.callers[g].phase) >= i + 1
      && (s'.callers[g].phase.Leaving? ==> g in s'.outcomes)
  {
    ActMoves(s, g, Next(i), ttl);
  }

  lemma {:induction false} NextStartsNone(s: System, n: nat, g: nat, i: nat, ttl: nat)
    requires g in s.callers && i <= 3 && Holds(s.callers[g].phase)
    requires n <= |s.log| && (forall m :: m in Tail(s, n) ==> !m.ProbeStarted?)
    ensures var s' := Apply(s, Act(g, Next(i)), ttl);
      n <= |s'.log| && (forall m :: m in Tail(s', n) ==> !m.ProbeStarted?)
  {
    var s' := Apply(s, Act(g, Next(i)), ttl);
    ActStore(s, g, Next(i), ttl);
    TailExtends(s, s', n);
    if s'.log != s.log {
      assert s'.log == s.log + [s'.log[|s.log|]];
      assert !s'.log[|s.log|].ProbeStarted?;
    }
  }

  lemma {:induction false} FlightGoesOn(s: System, n: nat, f: nat, g: nat, i: nat, ttl: nat)
    requires WaitsOld(s, n, f, g) && i <= 3 && Rank(s.callers[g].phase) >= i
    ensures var s' := Apply(s, Act(g, Next(i)), ttl);
      WaitsOld(s', n, f, g) && Rank(s'.callers[g].phase) >= i + 1
  {
    NextMoves(s, g, i, ttl);
    NextStartsNone(s, n, g, i, ttl);
  }

  function Finishing(g: nat, i: nat): seq<Step> {
    if i == 0 then [] else Finishing(g, i - 1) + [Act(g, Next(i - 1))]
  }

  lemma {:induction false} FlightFinishes(s: System, n: nat, f: nat, g: nat, i: nat, ttl: nat)
    requires WaitsOld(s, n, f, g) && i <= 4
    ensures var s' := Run(s, Finishing(g, i), ttl);
      WaitsOld(s', n, f, g) && Rank(s'.callers[g].phase) >= i
  {
    if i > 0 {
      FlightFinishes(s, n, f, g, i - 1, ttl);
      FlightGoesOn(Run(s, Finishing(g, i - 1), ttl), n, f, g, i - 1, ttl);
      assert Finishing(g, i)[..|Finishing(g, i)| - 1] == Finishing(g, i - 1);
    }
  }

  function Boarding(f: nat, k: Key): seq<Step> {
    [Ask(f, k), Act(f, Look), Act(f, Enter)]
  }

  /** A caller that comes behind the invalidation finds the cache empty and joins. */
  lemma {:induction false} Boards(s: System, f: nat, g: nat, ttl: nat)
    requires g in s.callers && Holds(s.callers[g].phase) && (s.callers[g].phase.Leaving? ==> g in s.outcomes)
    requires f !in s.callers && s.callers[g].key !in s.models
    requires s.callers[g].key in s.calls && s.calls[s.callers[g].key] == g
    ensures WaitsOld(Run(s, Boarding(f, s.callers[g].key), ttl), |s.log|, f, g)
  {
    var k := s.callers[g].key;
    var s1 := Apply(s, Ask(f, k), ttl);
    var s2 := Apply(s1, Act(f, Look), ttl);
    var s3 := Apply(s2, Act(f, Enter), ttl);
    RunThree(s, Ask(f, k), Act(f, Look), Act(f, Enter), ttl);
    assert s1.callers[f] == Caller(k, Asking) && s2.callers[f] == Caller(k, Missed);
    assert s3.callers[f] == Caller(k, Waiting(g)) && s3.callers[g] == s.callers[g];
    assert Tail(s3, |s.log|) == [];
  }

  lemma {:induction false} RunThree(s: System, a: Step, b: Step, c: Step, ttl: nat)
    ensures Run(s, [a, b, c], ttl) == Apply(Apply(Apply(s, a, ttl), b, ttl), c, ttl)
  {
    assert [a, b, c][..2] == [a, b] && [a, b][..1] == [a] && [a][..0] == [];
    assert Run(s, [], ttl) == s;
    assert Run(s, [a], ttl) == Apply(s, a, ttl);
    assert Run(s, [a, b], ttl) == Apply(Run(s, [a], ttl), b, ttl);
  }

  lemma {:induction false} SomeoneNew(s: System) returns (f: nat)
    ensures f !in s.callers
  {
    f := Above(s.callers.Keys);
  }

  lemma {:induction false} Above(names: set<nat>) returns (f: nat)
    ensures forall g :: g in names ==> g < f
    decreases |names|
  {
    if names == {} {
      return 0;
    }
    var g :| g in names;
    f := Above(names - {g});
    f := if g < f then f else g + 1;
    forall h | h in names ensures h < f {
      assert h == g || h in names - {g};
    }
  }

  lemma {:induction false} NotNew(tail: seq<Mark>, k: Key, r: (seq<string>, Option<string>))
    requires forall m :: m in tail ==> !m.ProbeStarted?
    ensures !IsNew(tail, k, r)
  {
  }

  /** The joiner gets the old result. */
  lemma {:induction false} JoinsOld(s: System, n: nat, f: nat, g: nat, ttl: nat)
    requires WaitsOld(s, n, f, g) && Rank(s.callers[g].phase) == 4
    ensures var s' := Apply(s, Act(f, Join), ttl);
      && f in s'.callers && s'.callers[f].key == s.callers[g].key && s'.callers[f].phase.Answered?
      && !IsNew(Tail(s', n), s'.callers[f].key, ResultOf(s'.callers[f].phase.entry))
  {
    var s' := Apply(s, Act(f, Join), ttl);
    NotNew(Tail(s, n), s'.callers[f].key, ResultOf(s'.callers[f].phase.entry));
  }

  /** From the invalidation to the old answer. */
  lemma {:induction false} OldAnswer(s: System, g: nat, ttl: nat) returns (more: seq<Step>, f: nat)
    requires g in s.callers && Holds(s.callers[g].phase) && (s.callers[g].phase.Leaving? ==> g in s.outcomes)
    requires s.callers[g].key !in s.models && s.callers[g].key in s.calls && s.calls[s.callers[g].key] == g
    ensures f !in s.callers
    ensures var s' := Run(s, more, ttl);
      && f in s'.callers && s'.callers[f].key == s.callers[g].key && s'.callers[f].phase.Answered?
      && !IsNew(Tail(s', |s.log|), s'.callers[f].key, ResultOf(s'.callers[f].phase.entry))
  {
    f := SomeoneNew(s);
    var boarding, finishing := Boarding(f, s.callers[g].key), Finishing(g, 4);
    Boards(s, f, g, ttl);
    var s1 := Run(s, boarding, ttl);
    KeyStays(s, boarding, g, ttl);
    FlightFinishes(s1, |s.log|, f, g, 4, ttl);
    KeyStays(s1, finishing, g, ttl);
    JoinsOld(Run(s1, finishing, ttl), |s.log|, f, g, ttl);
    RunAppend(s, boarding, finishing, ttl);
    more := boarding + finishing + [Act(f, Join)];
    assert more[..|more| - 1] == boarding + finishing;
  }

  lemma {:induction false} KeyStays(s: System, steps: seq<Step>, g: nat, ttl: nat)
    requires g in s.callers
    ensures g in Run(s, steps, ttl).callers && Run(s, steps, ttl).callers[g].key == s.callers[g].key
  {
    if steps != [] {
      KeyStays(s, steps[..|steps| - 1], g, ttl);
      CallersStay(Run(s, steps[..|steps| - 1], ttl), steps[|steps| - 1], ttl);
    }
  }

  lemma {:induction false} LateJoiner(steps: seq<Step>, harness: string, g: nat, ttl: nat)
    requires g in Exec(steps, ttl).callers && Exec(steps, ttl).callers[g].key.harness == harness
    requires Holds(Exec(steps, ttl).callers[g].phase)
    ensures !AnswersAreNew(steps, harness, ttl)
  {
    var start := steps + [Invalidate(harness)];
    var s := Exec(start, ttl);
    InvalidateStep(steps, harness, ttl);
    AlwaysGood(start, ttl);
    var more, f := OldAnswer(s, g, ttl);
    ExecIsRun(start, more, ttl);
    assert Exec(start + more, ttl) == Run(s, more, ttl);
  }

  lemma {:induction false} RunAppend(s: System, a: seq<Step>, b: seq<Step>, ttl: nat)
    ensures Run(s, a + b, ttl) == Run(Run(s, a, ttl), b, ttl)
  {
    if b == [] {
      assert a + b == a;
    } else {
      RunAppend(s, a, b[..|b| - 1], ttl);
      assert (a + b)[..|a + b| - 1] == a + b[..|b| - 1];
    }
  }

  /** An invalidation is final for those that ask behind it, whatever else runs, exactly
      when no flight of the harness has a probe under way or its result in hand at that
      moment. Otherwise a caller that joins such a flight gets what was read before. */
  lemma {:induction false} NewAfterInvalidateIff(steps: seq<Step>, harness: string, ttl: nat)
    ensures AnswersAreNew(steps, harness, ttl) <==> Quiet(Exec(steps, ttl), harness)
  {
    if Quiet(Exec(steps, ttl), harness) {
      QuietIsEnough(steps, harness, ttl);
    } else {
      var g :| g in Exec(steps, ttl).callers && Exec(steps, ttl).callers[g].key.harness == harness
               && Holds(Exec(steps, ttl).callers[g].phase);
      LateJoiner(steps, harness, g, ttl);
    }
  }
}
