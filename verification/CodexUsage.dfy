/** The turn usage of codex.go: notifications carry the usage of one model call and the
    total of the thread, and a turn counts what its calls added to the total. */
module CodexUsage {
  import opened Collections

  datatype Counters = Counters(input: int, output: int, cacheRead: int, cacheCreation: int)

  const ZERO := Counters(0, 0, 0, 0)

  function Add(a: Counters, b: Counters): Counters {
    Counters(a.input + b.input, a.output + b.output, a.cacheRead + b.cacheRead, a.cacheCreation + b.cacheCreation)
  }

  function Less(x: int, y: int): int {
    if x - y > 0 then x - y else 0
  }

  /** codexUsageSub: no counter goes below 0. */
  function Sub(a: Counters, b: Counters): Counters {
    Counters(Less(a.input, b.input), Less(a.output, b.output), Less(a.cacheRead, b.cacheRead),
             Less(a.cacheCreation, b.cacheCreation))
  }

  predicate AtMost(a: Counters, b: Counters) {
    a.input <= b.input && a.output <= b.output && a.cacheRead <= b.cacheRead && a.cacheCreation <= b.cacheCreation
  }

  /** One notification: the id of its turn, which may be missing, and either count. */
  datatype Report = Report(turnId: string, last: Option<Counters>, total: Option<Counters>)

  datatype Turn = Turn(id: string, active: bool, usage: Counters, base: Option<Counters>)

  // -------------------------------------------------------------------- sections

  function Start(t: Turn, id: string): Turn {
    Turn(id, true, ZERO, None)
  }

  predicate Ignored(t: Turn, r: Report) {
    !t.active || (r.turnId != "" && t.id != "" && r.turnId != t.id)
  }

  /** The thread total before a call, as a report tells it. */
  function BaseOf(r: Report): Counters
    requires r.total.Some?
  {
    if r.last.Some? then Sub(r.total.value, r.last.value) else r.total.value
  }

  function Note(t: Turn, r: Report): Turn {
    if Ignored(t, r) then t
    else if r.total.Some? then
      var base := if t.base.Some? then t.base.value else BaseOf(r);
      t.(base := Some(base), usage := Sub(r.total.value, base))
    else if r.last.Some? then t.(usage := Add(t.usage, r.last.value))
    else t
  }

  function Finish(t: Turn): (Turn, Counters) {
    (Turn("", false, ZERO, None), t.usage)
  }

  /** codexProtocol, as far as the usage of turns goes. */
  class Protocol {
    var turnId: string
    var turnActive: bool
    var turnUsage: Counters
    var turnBase: Option<Counters>

    ghost function State(): Turn
      reads this
    {
      Turn(turnId, turnActive, turnUsage, turnBase)
    }

    constructor ()
      ensures State() == Turn("", false, ZERO, None)
    {
      turnId, turnActive, turnUsage, turnBase := "", false, ZERO, None;
    }

    method TurnStarted(id: string)
      modifies this
      ensures State() == Start(old(State()), id)
      ensures turnId == id && turnActive && turnUsage == ZERO && turnBase == None
    {
      turnId := id;
      turnActive := true;
      turnUsage := ZERO;
      turnBase := None;
    }

    /** startTurn, after the ack. */
    method Acked()
      modifies this
      ensures turnActive && turnId == old(turnId) && turnUsage == old(turnUsage) && turnBase == old(turnBase)
    {
      turnActive := true;
    }

    method NoteTurnUsage(r: Report)
      modifies this
      ensures State() == Note(old(State()), r)
    {
      if !turnActive || (r.turnId != "" && turnId != "" && r.turnId != turnId) {
        return;
      }
      if r.total.Some? {
        if turnBase == None {
          var base := r.total.value;
          if r.last.Some? {
            base := Sub(base, r.last.value);
          }
          turnBase := Some(base);
        }
        turnUsage := Sub(r.total.value, turnBase.value);
      } else if r.last.Some? {
        turnUsage := Add(turnUsage, r.last.value);
      }
    }

    method TurnCompleted() returns (usage: Counters)
      modifies this
      ensures (State(), usage) == Finish(old(State()))
      ensures usage == old(turnUsage) && turnId == "" && !turnActive && turnUsage == ZERO && turnBase == None
    {
      turnActive := false;
      turnId := "";
      usage := turnUsage;
      turnUsage := ZERO;
      turnBase := None;
    }
  }

  // ------------------------------------------------------------------- one turn

  function NoteAll(t: Turn, reports: seq<Report>): Turn {
    if reports == [] then t else Note(NoteAll(t, reports[..|reports| - 1]), reports[|reports| - 1])
  }

  /** The thread total behind the reports. */
  function TotalAfter(total: Counters, reports: seq<Report>): Counters {
    if reports == [] then total
    else if reports[|reports| - 1].total.Some? then reports[|reports| - 1].total.value
    else TotalAfter(total, reports[..|reports| - 1])
  }

  /** The report repeats the one before it in its turn. */
  predicate Repeats(before: seq<Report>, r: Report) {
    before != [] && before[|before| - 1] == r
  }

  /** The reports of a turn that starts at a thread total: each adds its own call to the
      total, or repeats the report before it. */
  ghost predicate Chains(total: Counters, reports: seq<Report>) {
    reports != [] ==>
      var before, r := reports[..|reports| - 1], reports[|reports| - 1];
      && Chains(total, before)
      && r.last.Some? && r.total.Some? && AtMost(ZERO, r.last.value)
      && (Repeats(before, r) || r.total.value == Add(TotalAfter(total, before), r.last.value))
  }

  /** What the distinct calls of the reports used. */
  function Spent(reports: seq<Report>): Counters {
    if reports == [] then ZERO
    else
      var before, r := reports[..|reports| - 1], reports[|reports| - 1];
      if Repeats(before, r) || r.last == None then Spent(before) else Add(Spent(before), r.last.value)
  }

  ghost predicate Heard(t: Turn, reports: seq<Report>) {
    forall i :: 0 <= i < |reports| ==> !Ignored(t, reports[i])
  }

  /** Reports change neither the id of a turn nor that it is open. */
  lemma {:induction false} NoteKeepsTurn(t: Turn, reports: seq<Report>)
    ensures NoteAll(t, reports).id == t.id && NoteAll(t, reports).active == t.active
  {
    if reports != [] {
      NoteKeepsTurn(t, reports[..|reports| - 1]);
    }
  }

  lemma {:induction false} ChainGrows(total: Counters, reports: seq<Report>)
    requires Chains(total, reports) && AtMost(ZERO, total)
    ensures TotalAfter(total, reports) == Add(total, Spent(reports)) && AtMost(ZERO, Spent(reports))
  {
    if reports != [] {
      var before, r := reports[..|reports| - 1], reports[|reports| - 1];
      ChainGrows(total, before);
      if Repeats(before, r) {
        assert TotalAfter(total, before) == r.total.value;
      }
    }
  }

  /** The usage of a turn is the sum of its distinct calls, and the growth of the total. */
  lemma {:induction false} TurnUsageIsTheSum(total: Counters, t: Turn, reports: seq<Report>)
    requires Chains(total, reports) && AtMost(ZERO, total)
    requires t.active && t.base == None && t.usage == ZERO && Heard(t, reports)
    ensures var t' := NoteAll(t, reports);
      && t'.usage == Spent(reports) && AtMost(ZERO, t'.usage)
      && TotalAfter(total, reports) == Add(total, t'.usage)
      && (reports != [] ==> t'.base == Some(total))
  {
    ChainGrows(total, reports);
    if reports != [] {
      var before, r := reports[..|reports| - 1], reports[|reports| - 1];
      TurnUsageIsTheSum(total, t, before);
      NoteKeepsTurn(t, before);
      ChainGrows(total, before);
      assert !Ignored(t, r);
      if Repeats(before, r) {
        assert TotalAfter(total, before) == r.total.value;
      }
    }
  }

  /** Where totals only grow in a turn, its usage is the growth since the turn began
      exactly when the first report starts from there: its total without its own
      call, or its total where it names no call, is the total before. */
  lemma {:induction false} UsageIsGrowthIff(total: Counters, t: Turn, first: Report, reports: seq<Report>)
    requires t.active && t.base == None && t.usage == ZERO && Heard(t, [first] + reports)
    requires first.total.Some?
    requires first.last.Some? ==> AtMost(ZERO, first.last.value) && AtMost(first.last.value, first.total.value)
    requires AtMost(first.total.value, TotalAfter(first.total.value, reports))
    requires forall i :: 0 <= i < |reports| ==> reports[i].total.Some?
    ensures Add(total, NoteAll(t, [first] + reports).usage) == TotalAfter(total, [first] + reports) <==>
      first.total.value == if first.last.Some? then Add(total, first.last.value) else total
  {
    FirstReportIsTheBase(t, first, reports);
    TotalBehind(total, first, reports);
  }

  lemma {:induction false} FirstReportIsTheBase(t: Turn, first: Report, reports: seq<Report>)
    requires t.active && t.base == None && Heard(t, [first] + reports) && first.total.Some?
    requires forall i :: 0 <= i < |reports| ==> reports[i].total.Some?
    ensures var t' := NoteAll(t, [first] + reports);
      && t'.base == Some(BaseOf(first))
      && t'.usage == Sub(TotalAfter(first.total.value, reports), BaseOf(first))
  {
    assert ([first] + reports)[0] == first;
    if reports == [] {
      assert [first] + reports == [first] && [first][..0] == [];
      assert NoteAll(t, [first]) == Note(t, first);
    } else {
      var before, r := reports[..|reports| - 1], reports[|reports| - 1];
      assert ([first] + reports)[..|reports|] == [first] + before;
      assert ([first] + reports)[|reports|] == r;
      forall i | 0 <= i < |before| + 1 ensures !Ignored(t, ([first] + before)[i]) {
        assert ([first] + before)[i] == ([first] + reports)[i];
      }
      FirstReportIsTheBase(t, first, before);
      NoteKeepsTurn(t, [first] + before);
    }
  }

  lemma {:induction false} TotalBehind(total: Counters, first: Report, reports: seq<Report>)
    requires first.total.Some?
    ensures TotalAfter(total, [first] + reports) == TotalAfter(first.total.value, reports)
  {
    if reports == [] {
      assert [first] + reports == [first];
    } else {
      assert ([first] + reports)[..|reports|] == [first] + reports[..|reports| - 1];
      TotalBehind(total, first, reports[..|reports| - 1]);
    }
  }

  /** A notification that comes twice in a row adds nothing the second time, at any
      place in a turn, exactly when it is not heard, or carries a total, or names
      no call, or one that used nothing. */
  lemma {:induction false} RepeatAddsNothingIff(t: Turn, before: seq<Report>, r: Report)
    ensures NoteAll(t, before + [r, r]).usage == NoteAll(t, before + [r]).usage <==>
      Ignored(t, r) || r.total.Some? || r.last == None || r.last == Some(ZERO)
  {
    assert (before + [r, r])[..|before| + 1] == before + [r];
    assert (before + [r])[..|before|] == before;
    NoteKeepsTurn(t, before);
    NoteKeepsTurn(t, before + [r]);
    var now := NoteAll(t, before);
    assert Ignored(now, r) <==> Ignored(t, r);
    assert NoteAll(t, before + [r]) == Note(now, r) && NoteAll(t, before + [r, r]) == Note(Note(now, r), r);
  }

  // ------------------------------------------------------------------ whole threads

  /** One turn of a thread: its id and its reports, and reports that come behind its
      end, before the next turn. */
  datatype Script = Script(id: string, reports: seq<Report>, late: seq<Report>)

  /** A turn from start to completion, and the reports behind it. */
  function RunTurn(t: Turn, s: Script): (Turn, Counters) {
    var (t', usage) := Finish(NoteAll(Start(t, s.id), s.reports));
    (NoteAll(t', s.late), usage)
  }

  function RunThread(t: Turn, turns: seq<Script>): Turn {
    if turns == [] then t else RunTurn(RunThread(t, turns[..|turns| - 1]), turns[|turns| - 1]).0
  }

  /** The sum of the usages in the results of the turns. */
  function Billed(t: Turn, turns: seq<Script>): Counters {
    if turns == [] then ZERO
    else
      var before := turns[..|turns| - 1];
      Add(Billed(t, before), RunTurn(RunThread(t, before), turns[|turns| - 1]).1)
  }

  function ThreadTotal(total: Counters, turns: seq<Script>): Counters {
    if turns == [] then total
    else TotalAfter(ThreadTotal(total, turns[..|turns| - 1]), turns[|turns| - 1].reports)
  }

  /** Each turn chains on from the total of the turns before, with reports of its own
      id or none; what comes late is arbitrary. */
  ghost predicate Threads(total: Counters, turns: seq<Script>) {
    turns != [] ==>
      var before, s := turns[..|turns| - 1], turns[|turns| - 1];
      && Threads(total, before)
      && Chains(ThreadTotal(total, before), s.reports)
      && forall i :: 0 <= i < |s.reports| ==> s.reports[i].turnId in {"", s.id}
  }

  /** Between turns nothing is counted. */
  lemma {:induction false} LateIsIgnored(t: Turn, reports: seq<Report>)
    requires !t.active
    ensures NoteAll(t, reports) == t
  {
    if reports != [] {
      LateIsIgnored(t, reports[..|reports| - 1]);
    }
  }

  /** Over any thread the usages of the turns add up to what the total grew by. */
  lemma {:induction false} UsagesTelescope(total: Counters, t: Turn, turns: seq<Script>)
    requires AtMost(ZERO, total) && Threads(total, turns)
    ensures Add(total, Billed(t, turns)) == ThreadTotal(total, turns)
    ensures AtMost(total, ThreadTotal(total, turns))
  {
    if turns != [] {
      var before, s := turns[..|turns| - 1], turns[|turns| - 1];
      UsagesTelescope(total, t, before);
      var now := ThreadTotal(total, before);
      var open := Start(RunThread(t, before), s.id);
      forall i | 0 <= i < |s.reports| ensures !Ignored(open, s.reports[i]) {
        assert s.reports[i].turnId in {"", s.id};
      }
      TurnUsageIsTheSum(now, open, s.reports);
      LateIsIgnored(Finish(NoteAll(open, s.reports)).0, s.late);
    }
  }

  /** A call is no larger than the total that reports it. */
  lemma {:induction false} LastWithinTotal(total: Counters, reports: seq<Report>)
    requires AtMost(ZERO, total) && Chains(total, reports) && reports != []
    ensures var r := reports[|reports| - 1];
      AtMost(ZERO, r.last.value) && AtMost(r.last.value, r.total.value) && r.total.value == TotalAfter(total, reports)
  {
    var before, r := reports[..|reports| - 1], reports[|reports| - 1];
    if Repeats(before, r) {
      LastWithinTotal(total, before);
    } else {
      ChainGrows(total, before);
    }
  }

  lemma {:induction false} TotalsAreThere(total: Counters, reports: seq<Report>)
    requires Chains(total, reports)
    ensures forall i :: 0 <= i < |reports| ==> reports[i].total.Some?
  {
    if reports != [] {
      TotalsAreThere(total, reports[..|reports| - 1]);
    }
  }

  lemma {:induction false} IgnoredFirst(t: Turn, r: Report, reports: seq<Report>)
    requires Ignored(t, r)
    ensures NoteAll(t, [r] + reports) == NoteAll(t, reports)
  {
    if reports == [] {
      assert [r] + reports == [r] && [r][..0] == [];
      assert NoteAll(t, [r]) == Note(t, r);
    } else {
      assert ([r] + reports)[..|reports|] == [r] + reports[..|reports| - 1];
      IgnoredFirst(t, r, reports[..|reports| - 1]);
    }
  }

  /** The usage of a turn that opens with a report of the turn before, and goes on
      from its total. */
  lemma {:induction false} RepeatedOpening(total: Counters, open: Turn, r: Report, rest: seq<Report>)
    requires open.active && open.base == None && open.usage == ZERO && AtMost(ZERO, total)
    requires r.total == Some(total) && r.last.Some? && AtMost(ZERO, r.last.value) && AtMost(r.last.value, total)
    requires Chains(total, rest) && Heard(open, rest)
    ensures var usage := NoteAll(open, [r] + rest).usage;
      Add(total, usage) == if Ignored(open, r) then TotalAfter(total, rest) else Add(TotalAfter(total, rest), r.last.value)
  {
    if Ignored(open, r) {
      IgnoredFirst(open, r, rest);
      TurnUsageIsTheSum(total, open, rest);
    } else {
      assert Heard(open, [r] + rest);
      TotalsAreThere(total, rest);
      FirstReportIsTheBase(open, r, rest);
      ChainGrows(total, rest);
    }
  }

  /** Two turns, the second of which opens with the last report of the first. Together
      they bill what the total grew by exactly when that report names the first
      turn, which the second does not hear, or its call used nothing; else that
      call is billed twice. */
  lemma {:induction false} RepeatAcrossTurnsIff(total: Counters, t: Turn, s1: Script, s2: Script, rest: seq<Report>)
    requires AtMost(ZERO, total) && s1.reports != [] && Threads(total, [s1])
    requires s2.reports == [s1.reports[|s1.reports| - 1]] + rest
    requires Chains(TotalAfter(total, s1.reports), rest)
    requires forall i :: 0 <= i < |rest| ==> rest[i].turnId in {"", s2.id}
    ensures var r := s1.reports[|s1.reports| - 1];
      Add(total, Billed(t, [s1, s2])) == ThreadTotal(total, [s1, s2]) <==>
        (r.turnId != "" && s2.id != "" && r.turnId != s2.id) || r.last == Some(ZERO)
  {
    var r, middle := s1.reports[|s1.reports| - 1], TotalAfter(total, s1.reports);
    var open := Start(RunThread(t, [s1]), s2.id);
    assert [s1][..0] == [] && [s1, s2][..1] == [s1];
    LastWithinTotal(total, s1.reports);
    ChainGrows(total, s1.reports);
    UsagesTelescope(total, t, [s1]);
    forall i | 0 <= i < |rest| ensures !Ignored(open, rest[i]) {
      assert rest[i].turnId in {"", s2.id};
    }
    RepeatedOpening(middle, open, r, rest);
    TotalBehind(middle, r, rest);
  }

  // ----------------------------------------------------------------- a late ack

  /** What happens to the latch of a turn: its two notifications, and the ack of a
      prompt, which a goroutine of its own waits for. */
  datatype Step = Started(id: string) | Completed | Ack | Reported(report: Report)

  function Apply(t: Turn, step: Step): Turn {
    match step
    case Started(id) => Start(t, id)
    case Completed => Finish(t).0
    case Ack => t.(active := true)
    case Reported(r) => Note(t, r)
  }

  function Exec(steps: seq<Step>): Turn {
    if steps == [] then Turn("", false, ZERO, None) else Apply(Exec(steps[..|steps| - 1]), steps[|steps| - 1])
  }

  /** The vendor's turn runs: it started and did not complete since. */
  predicate TurnRuns(steps: seq<Step>) {
    steps != [] &&
      match steps[|steps| - 1]
      case Started(_) => true
      case Completed => false
      case _ => TurnRuns(steps[..|steps| - 1])
  }

  /** An ack came while no turn runs, and none started or completed since. */
  predicate AckIsLoose(steps: seq<Step>) {
    steps != [] &&
      match steps[|steps| - 1]
      case Started(_) => false
      case Completed => false
      case Ack => !TurnRuns(steps[..|steps| - 1])
      case Reported(_) => AckIsLoose(steps[..|steps| - 1])
  }

  lemma {:induction false} ActiveIs(steps: seq<Step>)
    ensures Exec(steps).active <==> TurnRuns(steps) || AckIsLoose(steps)
    ensures !(TurnRuns(steps) && AckIsLoose(steps))
  {
    if steps != [] {
      ActiveIs(steps[..|steps| - 1]);
    }
  }

  /** TurnActive says whether a turn runs, in every run, exactly when no ack came
      loose: before its turn started or behind its end. */
  lemma {:induction false} ActiveIsExactIff(steps: seq<Step>)
    ensures (Exec(steps).active <==> TurnRuns(steps)) <==> !AckIsLoose(steps)
  {
    ActiveIs(steps);
  }

  /** A loose ack keeps the session busy until a turn completes: while it is active,
      Prompt is refused, so no prompt of its own starts one. */
  lemma {:induction false} LooseAckKeepsActive(steps: seq<Step>, more: seq<Step>)
    requires AckIsLoose(steps) && forall i :: 0 <= i < |more| ==> !more[i].Completed?
    ensures Exec(steps + more).active
  {
    if more == [] {
      assert steps + more == steps;
      ActiveIs(steps);
    } else {
      assert (steps + more)[..|steps + more| - 1] == steps + more[..|more| - 1];
      LooseAckKeepsActive(steps, more[..|more| - 1]);
    }
  }

  // ------------------------------------------------------------ any reports at all

  /** A turn hears the reports that bear its id or none, while it is active. */
  predicate Hears(t: Turn, r: Report) {
    t.active && (r.turnId == "" || t.id == "" || r.turnId == t.id)
  }

  /** The calls that the heard reports name, added up. */
  function SumLasts(t: Turn, reports: seq<Report>): Counters {
    if reports == [] then ZERO
    else
      var before, r := SumLasts(t, reports[..|reports| - 1]), reports[|reports| - 1];
      if Hears(t, r) && r.last.Some? then Add(before, r.last.value) else before
  }

  ghost predicate NoTotals(t: Turn, reports: seq<Report>) {
    forall i :: 0 <= i < |reports| && Hears(t, reports[i]) ==> reports[i].total == None
  }

  lemma {:induction false} AddZero(a: Counters, b: Counters, c: Counters)
    ensures Add(a, ZERO) == a && Add(Add(a, b), c) == Add(a, Add(b, c))
  {
  }

  /** Without totals the usage grows by every call that is named. */
  lemma {:induction false} WithoutTotals(t: Turn, reports: seq<Report>)
    requires NoTotals(t, reports)
    ensures NoteAll(t, reports) == t.(usage := Add(t.usage, SumLasts(t, reports)))
  {
    AddZero(t.usage, ZERO, ZERO);
    if reports != [] {
      var before, r := reports[..|reports| - 1], reports[|reports| - 1];
      WithoutTotals(t, before);
      if Hears(t, r) && r.last.Some? {
        AddZero(t.usage, SumLasts(t, before), r.last.value);
      }
    }
  }

  lemma {:induction false} NoteAllAppend(t: Turn, a: seq<Report>, b: seq<Report>)
    ensures NoteAll(t, a + b) == NoteAll(NoteAll(t, a), b)
  {
    if b == [] {
      assert a + b == a;
    } else {
      assert (a + b)[..|a + b| - 1] == a + b[..|b| - 1];
      NoteAllAppend(t, a, b[..|b| - 1]);
    }
  }

  lemma {:induction false} BaseStays(t: Turn, reports: seq<Report>)
    requires t.base.Some?
    ensures NoteAll(t, reports).base == t.base
  {
    if reports != [] {
      BaseStays(t, reports[..|reports| - 1]);
    }
  }

  lemma {:induction false} SumOfSame(t: Turn, t': Turn, reports: seq<Report>)
    requires t.active == t'.active && t.id == t'.id
    ensures SumLasts(t, reports) == SumLasts(t', reports) && (NoTotals(t, reports) <==> NoTotals(t', reports))
  {
    if reports != [] {
      SumOfSame(t, t', reports[..|reports| - 1]);
    }
    forall r ensures Hears(t, r) <==> Hears(t', r) {}
  }

  /** The usage of a turn for any reports: from the last total that was heard, less what the
      thread had before the first such report, and the calls named since. The first
      total without its own call, where it names one, is what the thread had. */
  lemma {:induction false} UsageOfAnyReports(t: Turn, a: seq<Report>, first: Report, b: seq<Report>, last: Report,
                                             c: seq<Report>)
    requires t.base == None && NoTotals(t, a) && NoTotals(t, c)
    requires Hears(t, first) && first.total.Some? && Hears(t, last) && last.total.Some?
    ensures var base := if first.last.Some? then Sub(first.total.value, first.last.value) else first.total.value;
      && NoteAll(t, a + [first] + b + [last] + c).usage == Add(Sub(last.total.value, base), SumLasts(t, c))
      && NoteAll(t, a + [first] + c).usage == Add(Sub(first.total.value, base), SumLasts(t, c))
  {
    var t1 := NoteAll(t, a);
    var t2 := NoteAll(t, a + [first]);
    WithoutTotals(t, a);
    NoteOne(t, a, first);
    SumOfSame(t, t2, c);
    WithoutTotals(t2, c);
    NoteAllAppend(t, a + [first], c);
    NoteAllAppend(t, a + [first], b);
    var t3 := NoteAll(t, a + [first] + b);
    BaseStays(t2, b);
    NoteKeepsTurn(t2, b);
    var t4 := NoteAll(t, a + [first] + b + [last]);
    NoteOne(t, a + [first] + b, last);
    SumOfSame(t, t4, c);
    WithoutTotals(t4, c);
    NoteAllAppend(t, a + [first] + b + [last], c);
  }

  lemma {:induction false} NoteOne(t: Turn, reports: seq<Report>, r: Report)
    ensures NoteAll(t, reports + [r]) == Note(NoteAll(t, reports), r)
  {
    assert (reports + [r])[..|reports|] == reports;
  }
}
