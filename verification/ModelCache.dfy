/** The model list cache of models.go over the single-flight group of
    internal/flight/flight.go: look, join or lead a flight, look again, probe,
    store.

    Class Runtime has one method per section of modelMu and of the group's
    mutex. In the machine any number of callers, invalidations and clock ticks
    interleave. The clock does not run backwards; a time is a whole number of
    seconds. */
module ModelCache {
  import opened Collections

  datatype Key = Key(harness: string, bin: string, version: string, home: string)

  /** One cached model list or probe failure. */
  datatype Entry = Entry(at: nat, models: seq<string>, err: Option<string>)

  const DEFAULT_TTL := 600
  const ERROR_TTL := 30

  /** How long an entry answers. */
  function Life(e: Entry, ttl: int): int {
    if e.err.Some? && ERROR_TTL < ttl then ERROR_TTL else ttl
  }

  predicate Fresh(e: Entry, ttl: int, now: nat) {
    now - e.at < Life(e, ttl)
  }

  /** What fresh is meant to say: younger than the TTL, and a failure younger than 30
      seconds as well. */
  predicate IsYoung(age: int, err: Option<string>, ttl: int) {
    age < ttl && (err.Some? ==> age < 30)
  }

  predicate Usable(models: map<Key, Entry>, k: Key, ttl: int, now: nat) {
    k in models && Fresh(models[k], ttl, now)
  }

  // ---------------------------------------------------------------- sections

  /** The section of Do: the caller joins the flight of another one, or leads its
      own. A flight is named by its leader. */
  function EnterSection(calls: map<Key, nat>, k: Key, me: nat): (map<Key, nat>, Option<nat>) {
    if k in calls then (calls, Some(calls[k])) else (calls[k := me], None)
  }

  function Without(models: map<Key, Entry>, harness: string): map<Key, Entry> {
    map k | k in models && k.harness != harness :: models[k]
  }

  class Runtime {
    var models: map<Key, Entry>
    var calls: map<Key, nat>

    constructor ()
      ensures models == map[] && calls == map[]
    {
      models, calls := map[], map[];
    }

    method Lookup(k: Key, ttl: int, now: nat) returns (hit: Option<Entry>)
      ensures hit == if Usable(models, k, ttl, now) then Some(models[k]) else None
      ensures hit.Some? <==> k in models && IsYoung(now - models[k].at, models[k].err, ttl)
    {
      hit := if k in models && Fresh(models[k], ttl, now) then Some(models[k]) else None;
    }

    method Store(k: Key, e: Entry)
      modifies this`models
      ensures models == old(models)[k := e]
    {
      models := models[k := e];
    }

    method InvalidateModels(harness: string)
      modifies this`models
      ensures models == Without(old(models), harness)
      ensures forall k :: k in models <==> k in old(models) && k.harness != harness
      ensures forall k :: k in models ==> models[k] == old(models)[k]
    {
      var rest := models.Keys;
      while rest != {}
        invariant rest <= old(models).Keys
        invariant forall k :: k in models <==> k in old(models) && (k in rest || k.harness != harness)
        invariant forall k :: k in models ==> models[k] == old(models)[k]
        decreases |rest|
      {
        var k :| k in rest;
        if k.harness == harness {
          models := models - {k};
        }
        rest := rest - {k};
      }
    }

    method Enter(k: Key, me: nat) returns (joined: Option<nat>)
      modifies this`calls
      ensures (calls, joined) == EnterSection(old(calls), k, me)
      ensures k in old(calls) ==> joined == Some(old(calls)[k]) && calls == old(calls)
      ensures k !in old(calls) ==> joined == None && calls == old(calls)[k := me]
    {
      if k in calls {
        return Some(calls[k]);
      }
      calls := calls[k := me];
      return None;
    }

    method Leave(k: Key)
      modifies this`calls
      ensures calls == old(calls) - {k}
    {
      calls := calls - {k};
    }

    /** The function that a flight runs: look again, else probe and store.
        `list` and `err` are what the probe would answer. */
    method Refresh(k: Key, ttl: int, now: nat, list: seq<string>, err: Option<string>)
      returns (answer: Entry, probed: bool)
      modifies this`models
      ensures probed <==> !Usable(old(models), k, ttl, now)
      ensures probed <==> k !in old(models) || !IsYoung(now - old(models)[k].at, old(models)[k].err, ttl)
      ensures answer == if probed then Entry(now, list, err) else old(models)[k]
      ensures models == if probed then old(models)[k := answer] else old(models)
    {
      var hit := Lookup(k, ttl, now);
      if hit.Some? {
        return hit.value, false;
      }
      answer, probed := Entry(now, list, err), true;
      Store(k, answer);
    }

    /** Models with no other caller: `option` is the configured TTL, where 0 means
        the default and a negative one switches the cache off. */
    method Models(k: Key, option: int, now: nat, list: seq<string>, err: Option<string>)
      returns (answer: Entry, probed: bool)
      requires calls == map[]
      modifies this
      ensures calls == map[]
      ensures probed <==>
        || option < 0 || k !in old(models)
        || !IsYoung(now - old(models)[k].at, old(models)[k].err, if option == 0 then 600 else option)
      ensures answer == if probed then Entry(now, list, err) else old(models)[k]
      ensures models == if probed && option >= 0 then old(models)[k := answer] else old(models)
    {
      var ttl := if option == 0 then DEFAULT_TTL else option;
      if ttl < 0 {
        return Entry(now, list, err), true;
      }
      var hit := Lookup(k, ttl, now);
      if hit.Some? {
        return hit.value, false;
      }
      var joined := Enter(k, 0);
      answer, probed := Refresh(k, ttl, now, list, err);
      Leave(k);
      assert calls == map[];
    }
  }

  // ----------------------------------------------------------------- machine

  /** Where one caller is. From Leading to Leaving it leads a flight. */
  datatype Phase =
    | Asking
    | Missed
    | Waiting(leader: nat)
    | Leading
    | Probing
    | Probed(models: seq<string>, err: Option<string>)
    | Storing(entry: Entry)
    | Publishing(entry: Entry)
    | Leaving(entry: Entry)
    | Answered(entry: Entry)

  datatype Caller = Caller(key: Key, phase: Phase)

  datatype Mark =
    | ProbeStarted(key: Key, at: nat)
    | ProbeEnded(key: Key, models: seq<string>, err: Option<string>)
    | Stored(key: Key, entry: Entry)
    | Invalidated(harness: string)

  /** `outcomes` are the results that leaders published; `log` is a record. */
  datatype System = System(
    models: map<Key, Entry>,
    calls: map<Key, nat>,
    callers: map<nat, Caller>,
    outcomes: map<nat, Entry>,
    now: nat,
    log: seq<Mark>)

  datatype Action =
    | Look
    | Enter
    | Join
    | LookAgain
    | ProbeReturns(models: seq<string>, err: Option<string>)
    | Stamp
    | Store
    | Publish
    | Leave

  datatype Step =
    | Ask(g: nat, key: Key)
    | Act(g: nat, action: Action)
    | Invalidate(harness: string)
    | Tick

  const INITIAL := System(map[], map[], map[], map[], 0, [])

  function Move(s: System, g: nat, phase: Phase): System
    requires g in s.callers
  {
    s.(callers := s.callers[g := s.callers[g].(phase := phase)])
  }

  /** Caller g acts; an action that does not fit its phase changes nothing. */
  function ActOn(s: System, g: nat, a: Action, ttl: nat): System
    requires g in s.callers
  {
    var k := s.callers[g].key;
    match s.callers[g].phase
    case Asking =>
      if !a.Look? then s
      else if Usable(s.models, k, ttl, s.now) then Move(s, g, Answered(s.models[k]))
      else Move(s, g, Missed)
    case Missed =>
      if !a.Enter? then s
      else
        var (calls, joined) := EnterSection(s.calls, k, g);
        Move(s, g, if joined.Some? then Waiting(joined.value) else Leading).(calls := calls)
    case Waiting(leader) =>
      if !a.Join? || leader !in s.outcomes then s else Move(s, g, Answered(s.outcomes[leader]))
    case Leading =>
      if !a.LookAgain? then s
      else if Usable(s.models, k, ttl, s.now) then Move(s, g, Publishing(s.models[k]))
      else Move(s, g, Probing).(log := s.log + [ProbeStarted(k, s.now)])
    case Probing =>
      if !a.ProbeReturns? then s
      else Move(s, g, Probed(a.models, a.err)).(log := s.log + [ProbeEnded(k, a.models, a.err)])
    case Probed(models, err) =>
      if !a.Stamp? then s else Move(s, g, Storing(Entry(s.now, models, err)))
    case Storing(e) =>
      if !a.Store? then s
      else Move(s, g, Publishing(e)).(models := s.models[k := e], log := s.log + [Stored(k, e)])
    case Publishing(e) =>
      if !a.Publish? then s else Move(s, g, Leaving(e)).(outcomes := s.outcomes[g := e])
    case Leaving(e) =>
      if !a.Leave? then s else Move(s, g, Answered(e)).(calls := s.calls - {k})
    case Answered(_) => s
  }

  function Apply(s: System, step: Step, ttl: nat): System {
    match step
    case Ask(g, k) =>
      if g in s.callers then s else s.(callers := s.callers[g := Caller(k, Asking)])
    case Act(g, a) => if g in s.callers then ActOn(s, g, a, ttl) else s
    case Invalidate(harness) =>
      s.(models := Without(s.models, harness), log := s.log + [Invalidated(harness)])
    case Tick => s.(now := s.now + 1)
  }

  function Exec(steps: seq<Step>, ttl: nat): System {
    if steps == [] then INITIAL
    else Apply(Exec(steps[..|steps| - 1], ttl), steps[|steps| - 1], ttl)
  }

  // ------------------------------------------------------------ single flight

  predicate Leads(phase: Phase) {
    phase.Leading? || phase.Probing? || phase.Probed? || phase.Storing? || phase.Publishing? || phase.Leaving?
  }

  /** The group holds exactly the flights that are led, each under its key. */
  ghost predicate OneFlightPerKey(calls: map<Key, nat>, callers: map<nat, Caller>) {
    && (forall g :: g in callers && Leads(callers[g].phase) ==>
          callers[g].key in calls && calls[callers[g].key] == g)
    && (forall k :: k in calls ==>
          calls[k] in callers && callers[calls[k]].key == k && Leads(callers[calls[k]].phase))
  }

  /** The published outcomes are those of leaders that are through. */
  ghost predicate Published(callers: map<nat, Caller>, outcomes: map<nat, Entry>) {
    && (forall g :: g in outcomes ==>
          g in callers && callers[g].phase in {Leaving(outcomes[g]), Answered(outcomes[g])})
    && (forall g :: g in callers && callers[g].phase.Leaving? ==> g in outcomes)
  }

  /** Every waiting caller waits for a leader of its key that has published or
      still leads. */
  ghost predicate WaitsForLeader(callers: map<nat, Caller>, outcomes: map<nat, Entry>) {
    forall g :: g in callers && callers[g].phase.Waiting? ==>
      var l := callers[g].phase.leader;
      && l in callers && callers[l].key == callers[g].key
      && (l in outcomes || Leads(callers[l].phase))
  }

  function Moved(callers: map<nat, Caller>, g: nat, phase: Phase): map<nat, Caller>
    requires g in callers
  {
    callers[g := callers[g].(phase := phase)]
  }

  lemma {:induction false} FlightByMove(calls: map<Key, nat>, callers: map<nat, Caller>, g: nat, phase: Phase)
    requires OneFlightPerKey(calls, callers) && g in callers
    requires Leads(phase) <==> Leads(callers[g].phase)
    ensures OneFlightPerKey(calls, Moved(callers, g, phase))
  {
  }

  lemma {:induction false} FlightByTakeOff(calls: map<Key, nat>, callers: map<nat, Caller>, g: nat)
    requires OneFlightPerKey(calls, callers) && g in callers
    requires !Leads(callers[g].phase) && callers[g].key !in calls
    ensures OneFlightPerKey(calls[callers[g].key := g], Moved(callers, g, Leading))
  {
  }

  /** The delete of a leader removes its own flight. */
  lemma {:induction false} FlightByLanding(calls: map<Key, nat>, callers: map<nat, Caller>, g: nat, phase: Phase)
    requires OneFlightPerKey(calls, callers) && g in callers
    requires Leads(callers[g].phase) && !Leads(phase)
    ensures callers[g].key in calls && calls[callers[g].key] == g
    ensures OneFlightPerKey(calls - {callers[g].key}, Moved(callers, g, phase))
  {
  }

  /** What an action of caller g does to the flights and the callers. */
  ghost predicate FlightShape(s: System, s': System, g: nat)
    requires g in s.callers
  {
    && g in s'.callers
    && s'.callers == Moved(s.callers, g, s'.callers[g].phase)
    && var k, before, after := s.callers[g].key, Leads(s.callers[g].phase), Leads(s'.callers[g].phase);
       if before == after then s'.calls == s.calls
       else if after then k !in s.calls && s'.calls == s.calls[k := g] && s'.callers[g].phase == Leading
       else s'.calls == s.calls - {k}
  }

  /** An action moves its own caller at most. */
  lemma {:induction false} ActMoves(s: System, g: nat, a: Action, ttl: nat)
    requires g in s.callers
    ensures var s' := ActOn(s, g, a, ttl);
      g in s'.callers && s'.callers == Moved(s.callers, g, s'.callers[g].phase)
  {
    var s' := ActOn(s, g, a, ttl);
    assert s'.callers == s.callers || s'.callers == Moved(s.callers, g, s'.callers[g].phase);
  }

  lemma {:induction false} ActShape(s: System, g: nat, a: Action, ttl: nat)
    requires g in s.callers
    ensures FlightShape(s, ActOn(s, g, a, ttl), g)
  {
    ActMoves(s, g, a, ttl);
  }

  lemma {:induction false} FlightByShape(s: System, s': System, g: nat)
    requires OneFlightPerKey(s.calls, s.callers) && g in s.callers && FlightShape(s, s', g)
    ensures OneFlightPerKey(s'.calls, s'.callers)
  {
    var before, after := s.callers[g].phase, s'.callers[g].phase;
    if Leads(before) <==> Leads(after) {
      FlightByMove(s.calls, s.callers, g, after);
    } else if Leads(after) {
      FlightByTakeOff(s.calls, s.callers, g);
    } else {
      FlightByLanding(s.calls, s.callers, g, after);
    }
  }

  // ----------------------------------------------------------------- outcomes

  /** What an action of caller g does to the outcomes. */
  ghost predicate OutcomeShape(s: System, s': System, g: nat)
    requires g in s.callers && g in s'.callers
  {
    var before, after := s.callers[g].phase, s'.callers[g].phase;
    || (after == before && s'.outcomes == s.outcomes)
    || (before.Publishing? && after == Leaving(before.entry) && s'.outcomes == s.outcomes[g := before.entry])
    || (before.Leaving? && after == Answered(before.entry) && s'.outcomes == s.outcomes)
    || (before.Missed? && s.callers[g].key in s.calls && after == Waiting(s.calls[s.callers[g].key]) && s'.outcomes == s.outcomes)
    || (!before.Leaving? && !before.Answered? && !after.Leaving? && !after.Waiting?
        && (Leads(before) ==> Leads(after)) && s'.outcomes == s.outcomes)
  }

  lemma {:induction false} ActOutcome(s: System, g: nat, a: Action, ttl: nat)
    requires g in s.callers
    ensures g in ActOn(s, g, a, ttl).callers && OutcomeShape(s, ActOn(s, g, a, ttl), g)
  {
  }

  lemma {:induction false} PublishedByShape(s: System, s': System, g: nat)
    requires g in s.callers && FlightShape(s, s', g) && OutcomeShape(s, s', g)
    requires Published(s.callers, s.outcomes)
    ensures Published(s'.callers, s'.outcomes)
  {
  }

  lemma {:induction false} WaitsByShape(s: System, s': System, g: nat)
    requires g in s.callers && FlightShape(s, s', g) && OutcomeShape(s, s', g)
    requires OneFlightPerKey(s.calls, s.callers) && Published(s.callers, s.outcomes)
    requires WaitsForLeader(s.callers, s.outcomes)
    ensures WaitsForLeader(s'.callers, s'.outcomes)
  {
  }

  // ------------------------------------------------------------------ freshness

  predicate Probes(phase: Phase) {
    phase.Probing? || phase.Probed? || phase.Storing?
  }

  /** While a leader probes, and until it has stored, no entry of its key is
      fresh. */
  ghost predicate StaleWhileProbing(models: map<Key, Entry>, callers: map<nat, Caller>, ttl: nat, now: nat) {
    forall g :: g in callers && Probes(callers[g].phase) ==> !Usable(models, callers[g].key, ttl, now)
  }

  ghost predicate InvalidatedIn(marks: seq<Mark>, harness: string) {
    Invalidated(harness) in marks
  }

  /** A stored entry is the cached one, or has aged, or was invalidated. */
  ghost predicate StoredOrAged(models: map<Key, Entry>, log: seq<Mark>, ttl: nat, now: nat) {
    forall i :: 0 <= i < |log| && log[i].Stored? && !InvalidatedIn(log[i..], log[i].key.harness) ==>
      || (log[i].key in models && models[log[i].key] == log[i].entry)
      || !Fresh(log[i].entry, ttl, now)
  }

  /** No probe starts while an entry that was stored before, and not invalidated
      since, is fresh. */
  ghost predicate ProbesOnlyWhenStale(log: seq<Mark>, ttl: nat) {
    forall i, j |
      && 0 <= i < j < |log|
      && log[i].Stored? && log[j].ProbeStarted? && log[i].key == log[j].key
      && !InvalidatedIn(log[i..j], log[i].key.harness)
      :: !Fresh(log[i].entry, ttl, log[j].at)
  }

  /** What an action of caller g does to the cache and the log. */
  ghost predicate CacheShape(s: System, s': System, g: nat, ttl: nat)
    requires g in s.callers && g in s'.callers
  {
    var k, before, after := s.callers[g].key, s.callers[g].phase, s'.callers[g].phase;
    && s'.now == s.now
    && (Probes(after) && !Probes(before) ==> !Usable(s.models, k, ttl, s.now))
    && if before.Storing? && after != before then
         && s'.models == s.models[k := before.entry]
         && s'.log == s.log + [Stored(k, before.entry)]
         && !Probes(after)
       else
         && s'.models == s.models
         && (|| s'.log == s.log
             || (s'.log == s.log + [ProbeStarted(k, s.now)] && !Usable(s.models, k, ttl, s.now))
             || (after.Probed? && s'.log == s.log + [ProbeEnded(k, after.models, after.err)]))
  }

  lemma {:induction false} ActCache(s: System, g: nat, a: Action, ttl: nat)
    requires g in s.callers
    ensures g in ActOn(s, g, a, ttl).callers && CacheShape(s, ActOn(s, g, a, ttl), g, ttl)
  {
    ActMoves(s, g, a, ttl);
    if Probes(s.callers[g].phase) {
      ProberCache(s, g, a, ttl);
    }
  }

  lemma {:induction false} ProberCache(s: System, g: nat, a: Action, ttl: nat)
    requires g in s.callers && Probes(s.callers[g].phase)
    ensures g in ActOn(s, g, a, ttl).callers && CacheShape(s, ActOn(s, g, a, ttl), g, ttl)
  {
  }

  lemma {:induction false} StaleByShape(s: System, s': System, g: nat, ttl: nat)
    requires g in s.callers && FlightShape(s, s', g) && CacheShape(s, s', g, ttl)
    requires OneFlightPerKey(s.calls, s.callers) && StaleWhileProbing(s.models, s.callers, ttl, s.now)
    ensures StaleWhileProbing(s'.models, s'.callers, ttl, s'.now)
  {
  }

  lemma {:induction false} AgedByMark(models: map<Key, Entry>, log: seq<Mark>, m: Mark, ttl: nat, now: nat)
    requires StoredOrAged(models, log, ttl, now)
    requires !m.Stored? && !m.Invalidated?
    ensures StoredOrAged(models, log + [m], ttl, now)
  {
    forall i | 0 <= i < |log| ensures (log + [m])[i..] == log[i..] + [m] {}
  }

  lemma {:induction false} AgedByStore(models: map<Key, Entry>, log: seq<Mark>, k: Key, e: Entry, ttl: nat, now: nat)
    requires StoredOrAged(models, log, ttl, now) && !Usable(models, k, ttl, now)
    ensures StoredOrAged(models[k := e], log + [Stored(k, e)], ttl, now)
  {
    forall i | 0 <= i < |log| ensures (log + [Stored(k, e)])[i..] == log[i..] + [Stored(k, e)] {}
  }

  lemma {:induction false} AgedByInvalidate(models: map<Key, Entry>, log: seq<Mark>, h: string, ttl: nat, now: nat)
    requires StoredOrAged(models, log, ttl, now)
    ensures StoredOrAged(Without(models, h), log + [Invalidated(h)], ttl, now)
  {
    var log' := log + [Invalidated(h)];
    forall i | 0 <= i < |log| ensures log'[i..] == log[i..] + [Invalidated(h)] {}
    forall i | 0 <= i < |log| && log'[i].Stored? && log'[i].key.harness == h
      ensures InvalidatedIn(log'[i..], h)
    {
      assert log'[i..][|log| - i] == Invalidated(h);
    }
  }

  lemma {:induction false} ProbesByMark(models: map<Key, Entry>, log: seq<Mark>, m: Mark, ttl: nat, now: nat)
    requires ProbesOnlyWhenStale(log, ttl) && StoredOrAged(models, log, ttl, now)
    requires m.ProbeStarted? ==> m.at == now && !Usable(models, m.key, ttl, now)
    ensures ProbesOnlyWhenStale(log + [m], ttl)
  {
    var log' := log + [m];
    forall i, j | 0 <= i < j < |log'| ensures log'[i..j] == log[i..j] {}
    forall i | 0 <= i < |log| ensures log'[i..|log|] == log[i..] {}
  }

  // ---------------------------------------------------------------- one probe

  /** A probe of k runs after `log`: it started and has not ended. */
  function ProbeRuns(log: seq<Mark>, k: Key): bool {
    if log == [] then false
    else RunsAfter(ProbeRuns(log[..|log| - 1], k), log[|log| - 1], k)
  }

  ghost predicate ProbesApart(log: seq<Mark>) {
    forall j :: 0 <= j < |log| && log[j].ProbeStarted? ==> !ProbeRuns(log[..j], log[j].key)
  }

  ghost predicate ProbesAreLed(calls: map<Key, nat>, callers: map<nat, Caller>, log: seq<Mark>) {
    forall k :: ProbeRuns(log, k) <==> IsProbed(calls, callers, k)
  }

  function RunsAfter(before: bool, m: Mark, k: Key): bool {
    if m.ProbeStarted? && m.key == k then true
    else if m.ProbeEnded? && m.key == k then false
    else before
  }

  lemma ProbeRunsNext(log: seq<Mark>, m: Mark)
    ensures forall k :: ProbeRuns(log + [m], k) == RunsAfter(ProbeRuns(log, k), m, k)
  {
    assert (log + [m])[..|log|] == log;
  }

  /** How an action of caller g relates its phase to the log. */
  ghost predicate ProbeShape(s: System, s': System, g: nat)
    requires g in s.callers && g in s'.callers
  {
    var k, before, after := s.callers[g].key, s.callers[g].phase, s'.callers[g].phase;
    if before.Leading? && after.Probing? then s'.log == s.log + [ProbeStarted(k, s.now)]
    else if before.Probing? && !after.Probing? then
      after.Probed? && s'.log == s.log + [ProbeEnded(k, after.models, after.err)]
    else
      && before.Probing? == after.Probing?
      && (s'.log == s.log || (before.Storing? && s'.log == s.log + [Stored(k, before.entry)]))
  }

  lemma {:induction false} ActProbe(s: System, g: nat, a: Action, ttl: nat)
    requires g in s.callers
    ensures g in ActOn(s, g, a, ttl).callers && ProbeShape(s, ActOn(s, g, a, ttl), g)
  {
  }

  lemma {:induction false} ApartByMark(log: seq<Mark>, m: Mark)
    requires ProbesApart(log)
    requires m.ProbeStarted? ==> !ProbeRuns(log, m.key)
    ensures ProbesApart(log + [m])
  {
    var log' := log + [m];
    forall j | 0 <= j <= |log| ensures log'[..j] == log[..j] {}
    assert log[..|log|] == log;
  }

  /** Who probes, before and after an action of caller g. */
  predicate IsProbed(calls: map<Key, nat>, callers: map<nat, Caller>, k: Key) {
    k in calls && calls[k] in callers && callers[calls[k]].phase.Probing?
  }

  lemma {:induction false} ProbingByShape(s: System, s': System, g: nat, k: Key)
    requires g in s.callers && FlightShape(s, s', g) && OneFlightPerKey(s.calls, s.callers)
    ensures k != s.callers[g].key ==> (IsProbed(s'.calls, s'.callers, k) <==> IsProbed(s.calls, s.callers, k))
    ensures k == s.callers[g].key && Leads(s.callers[g].phase) ==>
      && (IsProbed(s.calls, s.callers, k) <==> s.callers[g].phase.Probing?)
      && (IsProbed(s'.calls, s'.callers, k) <==> s'.callers[g].phase.Probing?)
    ensures k == s.callers[g].key && !Leads(s.callers[g].phase) ==>
      (IsProbed(s'.calls, s'.callers, k) <==> IsProbed(s.calls, s.callers, k))
  {
  }

  lemma {:induction false} LedByShape(s: System, s': System, g: nat)
    requires g in s.callers && FlightShape(s, s', g) && ProbeShape(s, s', g)
    requires OneFlightPerKey(s.calls, s.callers)
    requires ProbesApart(s.log) && ProbesAreLed(s.calls, s.callers, s.log)
    ensures ProbesApart(s'.log) && ProbesAreLed(s'.calls, s'.callers, s'.log)
  {
    if s'.log != s.log {
      var m := s'.log[|s.log|];
      assert s'.log == s.log + [m];
      ProbeRunsNext(s.log, m);
      ProbingByShape(s, s', g, s.callers[g].key);
      ApartByMark(s.log, m);
    }
    forall k ensures ProbeRuns(s'.log, k) <==> IsProbed(s'.calls, s'.callers, k) {
      assert ProbeRuns(s.log, k) <==> IsProbed(s.calls, s.callers, k);
      ProbingByShape(s, s', g, k);
    }
  }

  // ------------------------------------------------------------------ sources

  /** What a caller has in hand: the models and error of a probe. */
  function Result(phase: Phase): Option<(seq<string>, Option<string>)> {
    match phase
    case Probed(models, err) => Some((models, err))
    case Storing(e) => Some((e.models, e.err))
    case Publishing(e) => Some((e.models, e.err))
    case Leaving(e) => Some((e.models, e.err))
    case Answered(e) => Some((e.models, e.err))
    case _ => None
  }

  /** Some probe of k ended with this result. */
  ghost predicate Sourced(log: seq<Mark>, k: Key, r: (seq<string>, Option<string>)) {
    ProbeEnded(k, r.0, r.1) in log
  }

  /** Cached entries, and all that callers have in hand, are results of probes of
      their key. */
  ghost predicate AllSourced(models: map<Key, Entry>, callers: map<nat, Caller>, log: seq<Mark>) {
    && (forall k :: k in models ==> Sourced(log, k, (models[k].models, models[k].err)))
    && (forall g :: g in callers && Result(callers[g].phase).Some? ==>
          Sourced(log, callers[g].key, Result(callers[g].phase).value))
  }

  /** Where the result that caller g has in hand after an action comes from. */
  ghost predicate SourceShape(s: System, s': System, g: nat)
    requires g in s.callers && g in s'.callers
  {
    var k, before, after := s.callers[g].key, s.callers[g].phase, s'.callers[g].phase;
    && s.log <= s'.log
    && (s'.models == s.models || (before.Storing? && s'.models == s.models[k := before.entry]))
    && (|| Result(after) == None
        || Result(after) == Result(before)
        || (k in s.models && Result(after) == Some((s.models[k].models, s.models[k].err)))
        || (before.Waiting? && before.leader in s.outcomes && after == Answered(s.outcomes[before.leader]))
        || (after.Probed? && ProbeEnded(k, after.models, after.err) in s'.log))
  }

  lemma {:induction false} ActSource(s: System, g: nat, a: Action, ttl: nat)
    requires g in s.callers
    ensures g in ActOn(s, g, a, ttl).callers && SourceShape(s, ActOn(s, g, a, ttl), g)
  {
    var s' := ActOn(s, g, a, ttl);
    if s.callers[g].phase.Probing? && a.ProbeReturns? {
      assert s'.log[|s.log|] == ProbeEnded(s.callers[g].key, a.models, a.err);
    }
  }

  lemma {:induction false} SourcedByShape(s: System, s': System, g: nat)
    requires g in s.callers && FlightShape(s, s', g) && SourceShape(s, s', g)
    requires Published(s.callers, s.outcomes) && WaitsForLeader(s.callers, s.outcomes)
    requires AllSourced(s.models, s.callers, s.log)
    ensures AllSourced(s'.models, s'.callers, s'.log)
  {
    MarksStay(s.log, s'.log);
    SourcedModels(s, s', g);
    forall f | f in s'.callers && Result(s'.callers[f].phase).Some?
      ensures Sourced(s'.log, s'.callers[f].key, Result(s'.callers[f].phase).value)
    {
      if f != g {
        assert s'.callers[f] == s.callers[f];
      } else if s.callers[g].phase.Waiting? && s.callers[g].phase.leader in s.outcomes {
        var l := s.callers[g].phase.leader;
        assert Result(s.callers[l].phase) == Some((s.outcomes[l].models, s.outcomes[l].err));
      }
    }
  }

  lemma {:induction false} MarksStay(log: seq<Mark>, log': seq<Mark>)
    requires log <= log'
    ensures forall m :: m in log ==> m in log'
  {
    forall m | m in log ensures m in log' {
      var i :| 0 <= i < |log| && log[i] == m;
      assert log'[i] == m;
    }
  }

  lemma {:induction false} SourcedModels(s: System, s': System, g: nat)
    requires g in s.callers && g in s'.callers && SourceShape(s, s', g) && AllSourced(s.models, s.callers, s.log)
    ensures forall k :: k in s'.models ==> Sourced(s'.log, k, (s'.models[k].models, s'.models[k].err))
  {
    MarksStay(s.log, s'.log);
  }

  // ------------------------------------------------------------------- theorems

  ghost predicate FlightsGood(s: System) {
    && OneFlightPerKey(s.calls, s.callers)
    && Published(s.callers, s.outcomes)
    && WaitsForLeader(s.callers, s.outcomes)
    && ProbesApart(s.log) && ProbesAreLed(s.calls, s.callers, s.log)
    && AllSourced(s.models, s.callers, s.log)
  }

  ghost predicate CacheGood(s: System, ttl: nat) {
    && StaleWhileProbing(s.models, s.callers, ttl, s.now)
    && StoredOrAged(s.models, s.log, ttl, s.now)
    && ProbesOnlyWhenStale(s.log, ttl)
  }

  lemma {:induction false} FlightsByAct(s: System, g: nat, a: Action, ttl: nat)
    requires FlightsGood(s) && g in s.callers
    ensures FlightsGood(ActOn(s, g, a, ttl))
  {
    var s' := ActOn(s, g, a, ttl);
    ActShape(s, g, a, ttl);
    ActOutcome(s, g, a, ttl);
    ActProbe(s, g, a, ttl);
    ActSource(s, g, a, ttl);
    FlightByShape(s, s', g);
    PublishedByShape(s, s', g);
    WaitsByShape(s, s', g);
    LedByShape(s, s', g);
    SourcedByShape(s, s', g);
  }

  lemma {:induction false} CacheByAct(s: System, g: nat, a: Action, ttl: nat)
    requires FlightsGood(s) && CacheGood(s, ttl) && g in s.callers
    ensures CacheGood(ActOn(s, g, a, ttl), ttl)
  {
    var s' := ActOn(s, g, a, ttl);
    ActShape(s, g, a, ttl);
    ActCache(s, g, a, ttl);
    StaleByShape(s, s', g, ttl);
    if s'.log != s.log {
      var m := s'.log[|s.log|];
      assert s'.log == s.log + [m];
      ProbesByMark(s.models, s.log, m, ttl, s.now);
      if m.Stored? {
        AgedByStore(s.models, s.log, m.key, m.entry, ttl, s.now);
      } else {
        AgedByMark(s.models, s.log, m, ttl, s.now);
      }
    }
  }

  lemma {:induction false} FlightsByAsk(s: System, g: nat, k: Key, ttl: nat)
    requires FlightsGood(s)
    ensures FlightsGood(Apply(s, Ask(g, k), ttl))
  {
    if g !in s.callers {
      NewcomerLeadsNothing(s.calls, s.callers, s.outcomes, g, k);
      assert ProbesAreLed(s.calls, s.callers[g := Caller(k, Asking)], s.log);
      assert AllSourced(s.models, s.callers[g := Caller(k, Asking)], s.log);
    }
  }

  lemma {:induction false} NewcomerLeadsNothing(calls: map<Key, nat>, callers: map<nat, Caller>, outcomes: map<nat, Entry>,
                                                g: nat, k: Key)
    requires g !in callers
    requires OneFlightPerKey(calls, callers) && Published(callers, outcomes) && WaitsForLeader(callers, outcomes)
    ensures var callers' := callers[g := Caller(k, Asking)];
      OneFlightPerKey(calls, callers') && Published(callers', outcomes) && WaitsForLeader(callers', outcomes)
  {
  }

  lemma {:induction false} FlightsByInvalidate(s: System, harness: string, ttl: nat)
    requires FlightsGood(s)
    ensures FlightsGood(Apply(s, Invalidate(harness), ttl))
  {
    var m := Invalidated(harness);
    ProbeRunsNext(s.log, m);
    ApartByMark(s.log, m);
  }

  lemma {:induction false} CacheByOther(s: System, step: Step, ttl: nat)
    requires CacheGood(s, ttl) && !step.Act?
    ensures CacheGood(Apply(s, step, ttl), ttl)
  {
    if step.Invalidate? {
      AgedByInvalidate(s.models, s.log, step.harness, ttl, s.now);
      ProbesByMark(s.models, s.log, Invalidated(step.harness), ttl, s.now);
    }
  }

  lemma {:induction false} AlwaysGood(steps: seq<Step>, ttl: nat)
    ensures FlightsGood(Exec(steps, ttl)) && CacheGood(Exec(steps, ttl), ttl)
  {
    if steps != [] {
      var s, step := Exec(steps[..|steps| - 1], ttl), steps[|steps| - 1];
      AlwaysGood(steps[..|steps| - 1], ttl);
      match step
      case Act(g, a) =>
        if g in s.callers {
          FlightsByAct(s, g, a, ttl);
          CacheByAct(s, g, a, ttl);
        }
      case Ask(g, k) => FlightsByAsk(s, g, k, ttl); CacheByOther(s, step, ttl);
      case Invalidate(harness) => FlightsByInvalidate(s, harness, ttl); CacheByOther(s, step, ttl);
      case Tick => CacheByOther(s, step, ttl);
    }
  }

  /** However many callers run, two probes of one key never overlap: at most one
      caller probes a key, and in the record each probe of a key has ended
      before the next one starts. */
  lemma {:induction false} ProbesNeverOverlap(steps: seq<Step>, ttl: nat, g: nat, h: nat)
    requires var c := Exec(steps, ttl).callers;
      g in c && h in c && c[g].phase == Probing && c[h].phase == Probing && c[g].key == c[h].key
    ensures g == h
    ensures ProbesApart(Exec(steps, ttl).log)
  {
    AlwaysGood(steps, ttl);
  }

  lemma {:induction false} OneFlightAlways(steps: seq<Step>, ttl: nat)
    ensures OneFlightPerKey(Exec(steps, ttl).calls, Exec(steps, ttl).callers)
  {
    AlwaysGood(steps, ttl);
  }

  /** The delete that ends a flight removes the leader's own entry and no other. */
  lemma {:induction false} LeaderDeletesItsOwn(steps: seq<Step>, ttl: nat, g: nat)
    requires g in Exec(steps, ttl).callers && Exec(steps, ttl).callers[g].phase.Leaving?
    ensures var s, s' := Exec(steps, ttl), Exec(steps + [Act(g, Leave)], ttl);
      var k := s.callers[g].key;
      && k in s.calls && s.calls[k] == g
      && s'.calls == s.calls - {k}
  {
    OneFlightAlways(steps, ttl);
    assert (steps + [Act(g, Leave)])[..|steps|] == steps;
  }

  /** Once an entry is stored, and unless its harness is invalidated, no probe of
      its key starts for as long as the entry is fresh; a failure is fresh for
      the shorter TTL at most. */
  lemma {:induction false} FreshEntriesAreNotProbed(steps: seq<Step>, ttl: nat, i: nat, j: nat)
    requires i < j < |Exec(steps, ttl).log|
    requires var log := Exec(steps, ttl).log;
      log[i].Stored? && log[j].ProbeStarted? && log[i].key == log[j].key
    requires !InvalidatedIn(Exec(steps, ttl).log[i..j], Exec(steps, ttl).log[i].key.harness)
    ensures var log := Exec(steps, ttl).log;
      var age := log[j].at - log[i].entry.at;
      age >= ttl || (log[i].entry.err.Some? && age >= ERROR_TTL)
  {
    AlwaysGood(steps, ttl);
  }

  /** The cache agrees with calling the probe: every answer is what some probe of
      the caller's key returned. */
  lemma {:induction false} AnswersAreProbed(steps: seq<Step>, ttl: nat, g: nat)
    requires g in Exec(steps, ttl).callers && Exec(steps, ttl).callers[g].phase.Answered?
    ensures var s := Exec(steps, ttl);
      var c := s.callers[g];
      ProbeEnded(c.key, c.phase.entry.models, c.phase.entry.err) in s.log
  {
    AlwaysGood(steps, ttl);
  }

  /** A caller that joined a flight gets the outcome of its leader. */
  lemma {:induction false} JoinersShareTheResult(steps: seq<Step>, ttl: nat, g: nat)
    requires var s := Exec(steps, ttl);
      && g in s.callers && s.callers[g].phase.Waiting?
      && s.callers[g].phase.leader in s.callers
      && s.callers[s.callers[g].phase.leader].phase.Answered?
    ensures var s, s' := Exec(steps, ttl), Exec(steps + [Act(g, Join)], ttl);
      s'.callers[g] == s.callers[s.callers[g].phase.leader]
  {
    AlwaysGood(steps, ttl);
    assert (steps + [Act(g, Join)])[..|steps|] == steps;
  }

  /** A caller is answered by the cache exactly when its key has an entry that is young
      enough, and then with that entry. Otherwise the leader of a flight starts a
      probe. */
  lemma {:induction false} CacheAnswersIffYoung(steps: seq<Step>, ttl: nat, g: nat)
    requires g in Exec(steps, ttl).callers
    ensures var s := Exec(steps, ttl);
      var k := s.callers[g].key;
      var young := k in s.models && IsYoung(s.now - s.models[k].at, s.models[k].err, ttl);
      && (s.callers[g].phase.Asking? ==>
            Exec(steps + [Act(g, Look)], ttl).callers[g].phase == if young then Answered(s.models[k]) else Missed)
      && (s.callers[g].phase.Leading? ==>
            var s' := Exec(steps + [Act(g, LookAgain)], ttl);
            && s'.callers[g].phase == (if young then Publishing(s.models[k]) else Probing)
            && s'.log == if young then s.log else s.log + [ProbeStarted(k, s.now)])
  {
    assert (steps + [Act(g, Look)])[..|steps|] == steps;
    assert (steps + [Act(g, LookAgain)])[..|steps|] == steps;
  }

  /** No entry bears a time that has not come. */
  ghost predicate Dated(s: System) {
    && (forall k :: k in s.models ==> s.models[k].at <= s.now)
    && (forall g :: g in s.callers && EntryOf(s.callers[g].phase).Some? ==> EntryOf(s.callers[g].phase).value.at <= s.now)
    && (forall g :: g in s.outcomes ==> s.outcomes[g].at <= s.now)
  }

  function EntryOf(phase: Phase): Option<Entry> {
    match phase
    case Storing(e) => Some(e)
    case Publishing(e) => Some(e)
    case Leaving(e) => Some(e)
    case Answered(e) => Some(e)
    case _ => None
  }

  lemma {:induction false} DatedByAct(s: System, g: nat, a: Action, ttl: nat)
    requires Dated(s) && g in s.callers
    ensures Dated(ActOn(s, g, a, ttl))
  {
  }

  lemma {:induction false} AlwaysDated(steps: seq<Step>, ttl: nat)
    ensures Dated(Exec(steps, ttl))
  {
    if steps != [] {
      var s, step := Exec(steps[..|steps| - 1], ttl), steps[|steps| - 1];
      AlwaysDated(steps[..|steps| - 1], ttl);
      if step.Act? && step.g in s.callers {
        DatedByAct(s, step.g, step.action, ttl);
      }
    }
  }

  /** So what the cache answers with is younger than the TTL, and a failure younger than
      30 seconds as well. */
  lemma {:induction false} CachedAnswersAreYoung(steps: seq<Step>, ttl: nat, g: nat)
    requires g in Exec(steps, ttl).callers && Exec(steps, ttl).callers[g].phase.Asking?
    requires Exec(steps + [Act(g, Look)], ttl).callers[g].phase.Answered?
    ensures var s, e := Exec(steps, ttl), Exec(steps + [Act(g, Look)], ttl).callers[g].phase.entry;
      && 0 <= s.now - e.at < ttl
      && (e.err.Some? ==> s.now - e.at < 30)
  {
    AlwaysDated(steps, ttl);
    CacheAnswersIffYoung(steps, ttl, g);
  }

  /** What a probe returns is stored under the time of its return and answered. */
  lemma {:induction false} ProbeIsStoredAndAnswered(s: System, g: nat, list: seq<string>, err: Option<string>, ttl: nat)
    requires g in s.callers && s.callers[g].phase.Probing?
    ensures var k, e := s.callers[g].key, Entry(s.now, list, err);
      var s1 := ActOn(ActOn(s, g, ProbeReturns(list, err), ttl), g, Stamp, ttl);
      && g in s1.callers && s1.callers[g] == Caller(k, Storing(e))
      && var s2 := ActOn(s1, g, Store, ttl);
         && s2.models == s.models[k := e] && g in s2.callers && s2.callers[g] == Caller(k, Publishing(e))
         && var s3 := ActOn(s2, g, Publish, ttl);
            && s3.outcomes == s.outcomes[g := e] && g in s3.callers && s3.callers[g] == Caller(k, Leaving(e))
            && ActOn(s3, g, Leave, ttl).callers == s.callers[g := Caller(k, Answered(e))]
            && ActOn(s3, g, Leave, ttl).calls == s.calls - {k}
  {
  }
}
