/** What a prompt of native/session.go adds to the conversation and to the events, said
    by its rounds alone: answers, tool messages, and how the turn ended. */
module NativeDialogue {
  import opened Collections
  import opened ModelStream
  import opened NativeSession

  // ---------------------------------------------------------------- the messages

  /** What a round with an answer adds: the assistant message with its text and its calls,
      and the tool messages of the calls that run. */
  function RoundMessages(r: Round): seq<Message>
    requires r.answer.Replies?
  {
    [Message.Assistant(r.answer.reply, r.answer.calls)]
    + ToolMessages(r.answer.calls, r.tools, 0, Reached(r.answer.calls, r.tools, 0))
  }

  function RoundEvents(r: Round): seq<Event>
    requires r.answer.Replies?
  {
    [UsageReport(r.answer.usage)] + ToolEvents(r.answer.calls, r.tools, 0, Reached(r.answer.calls, r.tools, 0))
  }

  /** Whether the model is asked in a round, and answers. */
  predicate Answered(t: Talk, cfg: Config, r: Round) {
    && r.over == None && r.before == None && r.answer.Replies?
    && (NeedsCompaction(cfg, t.msgs) ==> r.compaction.Folded? && (t.log.Some? ==> r.compaction.replaceFails == None))
  }

  lemma {:induction false} ReplySays(t: Talk, r: Round)
    requires r.answer.Replies?
    ensures var t' := Reply(t, r.answer.reply, r.answer.calls, r.answer.usage, r.stored);
      var t'' := RunTools(t', r.answer.calls, r.tools, 0).0;
      && t''.msgs == t.msgs + RoundMessages(r) && t''.events == t.events + RoundEvents(r)
      && (r.answer.calls == [] ==> t'' == t')
  {
    var t' := Reply(t, r.answer.reply, r.answer.calls, r.answer.usage, r.stored);
    var n := Reached(r.answer.calls, r.tools, 0);
    var m := Message.Assistant(r.answer.reply, r.answer.calls);
    ToolsSay(t', r.answer.calls, r.tools, 0);
    assert t'.msgs == t.msgs + [m] && t'.events == t.events + [UsageReport(r.answer.usage)];
    SumAssociates(t.msgs, [m], ToolMessages(r.answer.calls, r.tools, 0, n));
    SumAssociates(t.events, [UsageReport(r.answer.usage)], ToolEvents(r.answer.calls, r.tools, 0, n));
  }

  /** One round, with or without a compaction: what it adds to the conversation, and how
      the turn goes on. */
  lemma {:induction false} RoundSays(t: Talk, cfg: Config, r: Round)
    ensures var (t', ending) := RunRound(t, cfg, r);
      && (Answered(t, cfg, r) ==>
            var calls := r.answer.calls;
            var n := Reached(calls, r.tools, 0);
            && t'.msgs == Base(t, cfg, r) + RoundMessages(r)
            && t'.events == t.events + RoundEvents(r)
            && ending == if calls == [] then Some(Ended("end_turn"))
                         else if n < |calls| then Some(Stopped(r.tools(n).over.value)) else None)
      && (!Answered(t, cfg, r) ==> t'.msgs == Base(t, cfg, r) && t'.events == t.events && ending.Some? && ending.value.Stopped?)
  {
    if Answered(t, cfg, r) {
      var t1 := Compact(t, cfg, r.compaction).0;
      var t2 := t1.(modelCalls := t1.modelCalls + 1);
      ReplySays(t2, r);
      ToolsSay(Reply(t2, r.answer.reply, r.answer.calls, r.answer.usage, r.stored), r.answer.calls, r.tools, 0);
    }
  }

  /** What the rounds from the i-th to before the m-th add. */
  function Dialogue(env: nat -> Round, i: nat, m: nat): seq<Message>
    requires i <= m && forall j :: i <= j < m ==> env(j).answer.Replies?
    decreases m - i
  {
    if i == m then [] else RoundMessages(env(i)) + Dialogue(env, i + 1, m)
  }

  function DialogueEvents(env: nat -> Round, i: nat, m: nat): seq<Event>
    requires i <= m && forall j :: i <= j < m ==> env(j).answer.Replies?
    decreases m - i
  {
    if i == m then [] else RoundEvents(env(i)) + DialogueEvents(env, i + 1, m)
  }

  /** The round is answered, and so are all its calls, of which there are some: the turn
      goes on. */
  predicate GoesOn(r: Round) {
    && r.over == None && r.before == None && r.answer.Replies? && r.answer.calls != []
    && Reached(r.answer.calls, r.tools, 0) == |r.answer.calls|
  }

  /** What stopped a turn behind the rounds before the m-th. */
  predicate EndsAt(cfg: Config, env: nat -> Round, i: nat, m: nat, ending: Ending) {
    match ending
    case Ended(reason) =>
      if reason == "end_turn" then i < m && env(m - 1).answer.Replies? && env(m - 1).answer.calls == []
      else reason == "max_turn_requests" && m == Limit(cfg) && (i < m ==> GoesOn(env(m - 1)))
    case Stopped(e) =>
      || (i < m && env(m - 1).answer.Replies?
          && var r := env(m - 1); var n := Reached(r.answer.calls, r.tools, 0);
             n < |r.answer.calls| && r.tools(n).over == Some(e))
      || (m < Limit(cfg) && (i < m ==> GoesOn(env(m - 1))) && StopsBefore(cfg, env(m), e))
  }

  /** The round does not come to an answer, and why. */
  predicate StopsBefore(cfg: Config, r: Round, e: Err) {
    || r.over == Some(e)
    || (r.over == None && r.before == Some(e))
    || (cfg.compacts && r.compaction == CompactFails(e))
    || (cfg.compacts && r.compaction.Folded? && r.compaction.replaceFails == Some(e))
    || (r.over == None && r.before == None && r.answer == CallFails(e))
  }

  /** The list that a round starts from. */
  function Base(t: Talk, cfg: Config, r: Round): seq<Message> {
    if r.over == None && r.before == None && NeedsCompaction(cfg, t.msgs) && r.compaction.Folded?
    then r.compaction.msgs else t.msgs
  }

  /** What a turn comes to: the rounds up to the m-th, each with its answer and its tool
      messages, are what it adds; all but the last went on, and the ending is what
      happened there. If the list was folded, the conversation is the last fold and
      the rounds since. */
  ghost predicate IsTurn(t: Talk, cfg: Config, env: nat -> Round, i: nat, base: seq<Message>, from: nat, m: nat,
                         t': Talk, ending: Ending) {
    && i <= from <= m <= Limit(cfg) && (forall j :: i <= j < m ==> env(j).answer.Replies?)
    && (forall j :: i <= j < m - 1 ==> GoesOn(env(j)))
    && ((base == t.msgs && from == i) || IsFold(cfg, env, from, base))
    && t'.msgs == base + Dialogue(env, from, m) && t'.events == t.events + DialogueEvents(env, i, m)
    && EndsAt(cfg, env, i, m, ending)
  }

  lemma {:induction false} TurnSays(t: Talk, cfg: Config, env: nat -> Round, i: nat)
    returns (base: seq<Message>, from: nat, m: nat)
    requires i <= Limit(cfg)
    ensures IsTurn(t, cfg, env, i, base, from, m, RunRounds(t, cfg, env, i).0, RunRounds(t, cfg, env, i).1)
    decreases Limit(cfg) - i
  {
    base, from, m := t.msgs, i, i;
    if i == Limit(cfg) {
      NoRound(t, cfg, env);
    } else {
      base := Base(t, cfg, env(i));
      var (t1, ending) := RunRound(t, cfg, env(i));
      RoundsUnfold(t, cfg, env, i);
      if ending.Some? {
        m := if Answered(t, cfg, env(i)) then i + 1 else i;
        LastRound(t, cfg, env, i);
      } else {
        var base', from', m' := TurnSays(t1, cfg, env, i + 1);
        var (t', how) := RunRounds(t1, cfg, env, i + 1);
        m := m';
        if from' == i + 1 && base' == t1.msgs {
          JoinsRound(t, cfg, env, i, m, t', how);
        } else {
          JoinsFold(t, cfg, env, i, base', from', m, t', how);
          base, from := base', from';
        }
      }
    }
  }

  lemma {:induction false} RoundsUnfold(t: Talk, cfg: Config, env: nat -> Round, i: nat)
    requires i < Limit(cfg)
    ensures var (t', ending) := RunRound(t, cfg, env(i));
      RunRounds(t, cfg, env, i) == if ending.Some? then (t', ending.value) else RunRounds(t', cfg, env, i + 1)
  {
  }

  lemma {:induction false} NoRound(t: Talk, cfg: Config, env: nat -> Round)
    ensures var i := Limit(cfg);
      IsTurn(t, cfg, env, i, t.msgs, i, i, RunRounds(t, cfg, env, i).0, RunRounds(t, cfg, env, i).1)
  {
    assert Dialogue(env, Limit(cfg), Limit(cfg)) == [] && DialogueEvents(env, Limit(cfg), Limit(cfg)) == [];
  }

  lemma {:induction false} LastRound(t: Talk, cfg: Config, env: nat -> Round, i: nat)
    requires i < Limit(cfg) && RunRound(t, cfg, env(i)).1.Some?
    ensures var (t', ending) := RunRound(t, cfg, env(i));
      IsTurn(t, cfg, env, i, Base(t, cfg, env(i)), i, if Answered(t, cfg, env(i)) then i + 1 else i, t', ending.value)
  {
    RoundOfTurn(t, cfg, env, i);
    assert Dialogue(env, i + 1, i + 1) == [] && DialogueEvents(env, i + 1, i + 1) == [];
  }

  lemma {:induction false} JoinsRound(t: Talk, cfg: Config, env: nat -> Round, i: nat, m: nat, t': Talk, ending: Ending)
    requires i < Limit(cfg) && RunRound(t, cfg, env(i)).1 == None
    requires var t1 := RunRound(t, cfg, env(i)).0; IsTurn(t1, cfg, env, i + 1, t1.msgs, i + 1, m, t', ending)
    ensures IsTurn(t, cfg, env, i, Base(t, cfg, env(i)), i, m, t', ending)
  {
    RoundOfTurn(t, cfg, env, i);
    EndsLater(cfg, env, i, m, ending);
    SumAssociates(t.events, RoundEvents(env(i)), DialogueEvents(env, i + 1, m));
    SumAssociates(Base(t, cfg, env(i)), RoundMessages(env(i)), Dialogue(env, i + 1, m));
  }

  lemma {:induction false} JoinsFold(t: Talk, cfg: Config, env: nat -> Round, i: nat, base: seq<Message>, from: nat,
                                     m: nat, t': Talk, ending: Ending)
    requires i < Limit(cfg) && RunRound(t, cfg, env(i)).1 == None && IsFold(cfg, env, from, base)
    requires IsTurn(RunRound(t, cfg, env(i)).0, cfg, env, i + 1, base, from, m, t', ending)
    ensures IsTurn(t, cfg, env, i, base, from, m, t', ending)
  {
    RoundOfTurn(t, cfg, env, i);
    EndsLater(cfg, env, i, m, ending);
    SumAssociates(t.events, RoundEvents(env(i)), DialogueEvents(env, i + 1, m));
  }

  ghost predicate IsFold(cfg: Config, env: nat -> Round, from: nat, base: seq<Message>) {
    cfg.compacts && from < Limit(cfg) && env(from).compaction.Folded? && base == env(from).compaction.msgs
  }

  lemma {:induction false} EndsLater(cfg: Config, env: nat -> Round, i: nat, m: nat, ending: Ending)
    requires i < m && GoesOn(env(i)) && EndsAt(cfg, env, i + 1, m, ending)
    ensures EndsAt(cfg, env, i, m, ending)
  {
  }

  lemma {:induction false} RoundOfTurn(t: Talk, cfg: Config, env: nat -> Round, i: nat)
    requires i < Limit(cfg)
    ensures var base := Base(t, cfg, env(i)); base == t.msgs || IsFold(cfg, env, i, base)
    ensures var base, (t', ending) := Base(t, cfg, env(i)), RunRound(t, cfg, env(i));
      var m := if Answered(t, cfg, env(i)) then i + 1 else i;
      && (m == i ==> t'.msgs == base && t'.events == t.events && ending.Some?)
      && (m == i + 1 ==> t'.msgs == base + RoundMessages(env(i)) && t'.events == t.events + RoundEvents(env(i)))
      && (ending.Some? ==> EndsAt(cfg, env, i, m, ending.value))
      && (ending == None ==> GoesOn(env(i)))
  {
    RoundSays(t, cfg, env(i));
  }

  /** The last events of a prompt. */
  function Closing(ending: Ending): seq<Event> {
    match ending
    case Ended(reason) => [ResultEvent("success", reason), Idle]
    case Stopped(Cancelled) => [ResultEvent("interrupted", "cancelled"), Idle]
    case Stopped(Other(error)) => [ErrorEvent(error), ResultEvent("error", "error"), Idle]
  }

  lemma {:induction false} CloseSays(t: Talk, ending: Ending)
    ensures Close(t, ending).msgs == t.msgs && Close(t, ending).events == t.events + Closing(ending)
  {
  }

  /** A whole prompt: the user message and the rounds, and around their events running,
      the result and idle. */
  lemma {:induction false} PromptSays(t: Talk, cfg: Config, parts: seq<NativeSession.Part>, stored: bool, env: nat -> Round)
    returns (base: seq<Message>, from: nat, m: nat)
    ensures from <= m <= Limit(cfg) && (forall j :: 0 <= j < m ==> env(j).answer.Replies?)
    ensures forall j :: 0 <= j < m - 1 ==> GoesOn(env(j))
    ensures (base == t.msgs + [User(parts)] && from == 0) || IsFold(cfg, env, from, base)
    ensures var (t', ending) := Prompted(t, cfg, parts, stored, env);
      && t'.msgs == base + Dialogue(env, from, m)
      && t'.events == t.events + [Running] + DialogueEvents(env, 0, m) + Closing(ending)
      && EndsAt(cfg, env, 0, m, ending)
  {
    var t0 := Emit(Append(t, User(parts), stored), Running);
    base, from, m := TurnSays(t0, cfg, env, 0);
    var (t1, ending) := RunRounds(t0, cfg, env, 0);
    CloseSays(t1, ending);
  }

  // --------------------------------------------------------------------- the usage

  /** One counter of all usage events, added up. */
  function Total(events: seq<Event>, counter: Usage -> int): int {
    if events == [] then 0
    else
      var e := events[|events| - 1];
      Total(events[..|events| - 1], counter) + if e.UsageReport? then counter(e.usage) else 0
  }

  /** What the events reported is the sum, counter by counter. */
  lemma {:induction false} ReportedIsTheSum(events: seq<Event>)
    ensures var u := Reported(events);
      && u.input == Total(events, (u: Usage) => u.input) && u.output == Total(events, (u: Usage) => u.output)
      && u.cacheRead == Total(events, (u: Usage) => u.cacheRead)
      && u.cacheWrite == Total(events, (u: Usage) => u.cacheWrite)
      && u.reasoning == Total(events, (u: Usage) => u.reasoning)
  {
    if events != [] {
      ReportedIsTheSum(events[..|events| - 1]);
    }
  }
}
