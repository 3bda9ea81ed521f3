/** The tool loop of native/session.go over a store (native/store.go). The environment
    answers by script: what the context, the hooks, the compactor, the model, the
    tools and the store say. */
module NativeSession {
  import opened Collections
  import opened ModelStream

  // ---------------------------------------------------------------------- data

  /** A part of a user message. */
  datatype Part = File(mediaType: string, data: string) | Text(text: string)

  datatype Message =
    | User(parts: seq<Part>)
    | Assistant(reply: string, calls: seq<ToolCall>)
    | Tool(callId: string, name: string, content: string, isError: bool)

  datatype Err = Cancelled | Other(error: string)

  /** One tool call: whether the context still lives, what the tool says, and whether
      the store takes the message. */
  datatype ToolRound = ToolRound(over: Option<Err>, content: string, isError: bool, stored: bool)

  datatype Compaction = CompactFails(error: Err) | Folded(msgs: seq<Message>, replaceFails: Option<Err>)

  /** What a model call gives to the loop: streamCall's error or its answer. */
  datatype Answer = CallFails(error: Err) | Replies(reply: string, calls: seq<ToolCall>, usage: Usage)

  /** One round of the loop. */
  datatype Round = Round(over: Option<Err>, before: Option<Err>, compaction: Compaction, answer: Answer,
                         stored: bool, tools: nat -> ToolRound)

  datatype Event =
    | Running
    | Idle
    | UsageReport(usage: Usage)
    | ToolStarted(id: string)
    | ToolEnded(endedId: string, failed: bool)
    | ErrorEvent(error: string)
    | ResultEvent(subtype: string, endReason: string)

  datatype Config = Config(maxTurns: int, compacts: bool, contextTokens: int)

  const DEFAULT_MAX_TURNS := 20

  /** How many rounds one prompt has. */
  function Limit(cfg: Config): nat {
    if cfg.maxTurns <= 0 then DEFAULT_MAX_TURNS else cfg.maxTurns
  }

  /** A call of the store, with what came of it; `changed` says whether the compactor
      gave another list than it got. */
  datatype StoreCall = Appended(stored: bool) | Replaced(ok: bool, changed: bool)

  /** The conversation: the list in memory, the log in the store, the usage, the events,
      and three histories: how many model calls were made, which calls the store got,
      and whether the log was the list in memory behind each of these. */
  datatype Talk = Talk(msgs: seq<Message>, log: Option<seq<Message>>, usage: Usage, events: seq<Event>,
                       modelCalls: nat, asked: seq<StoreCall>, inStep: bool)

  datatype Ending = Ended(reason: string) | Stopped(error: Err)

  // ------------------------------------------------------------------ the loop

  function InputLength(calls: seq<ToolCall>): nat {
    if calls == [] then 0 else InputLength(calls[..|calls| - 1]) + |calls[|calls| - 1].input|
  }

  function TextLength(parts: seq<Part>): nat {
    if parts == [] then 0
    else
      var last := parts[|parts| - 1];
      TextLength(parts[..|parts| - 1]) + if last.Text? then |last.text| else 0
  }

  function Length(m: Message): nat {
    match m
    case User(parts) => TextLength(parts)
    case Assistant(text, calls) => |text| + InputLength(calls)
    case Tool(_, _, content, _) => |content|
  }

  function TotalLength(msgs: seq<Message>): nat {
    if msgs == [] then 0 else TotalLength(msgs[..|msgs| - 1]) + Length(msgs[|msgs| - 1])
  }

  /** What counts towards the budget: texts, the inputs of calls, and the contents of tool
      messages, but no file. */
  lemma {:induction false} LengthsAdd(msgs: seq<Message>, parts: seq<Part>, text: string, calls: seq<ToolCall>, c: ToolCall,
                                      id: string, name: string, isError: bool, media: string)
    ensures TotalLength([]) == 0
    ensures TotalLength(msgs + [User([])]) == TotalLength(msgs)
    ensures TotalLength(msgs + [User(parts + [Text(text)])]) == TotalLength(msgs + [User(parts)]) + |text|
    ensures TotalLength(msgs + [User(parts + [File(media, text)])]) == TotalLength(msgs + [User(parts)])
    ensures TotalLength(msgs + [Message.Assistant(text, [])]) == TotalLength(msgs) + |text|
    ensures TotalLength(msgs + [Message.Assistant(text, calls + [c])]) == TotalLength(msgs + [Message.Assistant(text, calls)]) + |c.input|
    ensures TotalLength(msgs + [Tool(id, name, text, isError)]) == TotalLength(msgs) + |text|
  {
    UserLengths(msgs, parts, text, media);
    TotalNext(msgs, Message.Assistant(text, []));
    TotalNext(msgs, Message.Assistant(text, calls));
    TotalNext(msgs, Message.Assistant(text, calls + [c]));
    TotalNext(msgs, Tool(id, name, text, isError));
    assert (calls + [c])[..|calls|] == calls;
  }

  lemma {:induction false} TotalNext(msgs: seq<Message>, m: Message)
    ensures TotalLength(msgs + [m]) == TotalLength(msgs) + Length(m)
  {
    assert (msgs + [m])[..|msgs|] == msgs;
  }

  lemma {:induction false} UserLengths(msgs: seq<Message>, parts: seq<Part>, text: string, media: string)
    ensures TotalLength(msgs + [User([])]) == TotalLength(msgs)
    ensures TotalLength(msgs + [User(parts + [Text(text)])]) == TotalLength(msgs + [User(parts)]) + |text|
    ensures TotalLength(msgs + [User(parts + [File(media, text)])]) == TotalLength(msgs + [User(parts)])
  {
    TotalNext(msgs, User([]));
    TotalNext(msgs, User(parts));
    TotalNext(msgs, User(parts + [Text(text)]));
    TotalNext(msgs, User(parts + [File(media, text)]));
    assert (parts + [Text(text)])[..|parts|] == parts;
    assert (parts + [File(media, text)])[..|parts|] == parts;
  }

  /** maybeCompact's guard: the list is past 60% of the budget, at four bytes a token. */
  predicate NeedsCompaction(cfg: Config, msgs: seq<Message>) {
    cfg.compacts && cfg.contextTokens > 0 && TotalLength(msgs) / 4 >= cfg.contextTokens * 60 / 100
  }

  function AddUsage(a: Usage, b: Usage): Usage {
    Usage(a.input + b.input, a.output + b.output, a.cacheRead + b.cacheRead, a.cacheWrite + b.cacheWrite,
          a.reasoning + b.reasoning)
  }

  /** A message in memory, and in the log if there is a store and it takes it. */
  function Append(t: Talk, m: Message, stored: bool): Talk {
    var t' := t.(msgs := t.msgs + [m]);
    if t.log == None then t'
    else Noted(if stored then t'.(log := Some(t.log.value + [m])) else t', Appended(stored))
  }

  /** The histories behind a call of the store. */
  function Noted(t: Talk, call: StoreCall): Talk {
    t.(asked := t.asked + [call], inStep := t.inStep && t.log == Some(t.msgs))
  }

  function Emit(t: Talk, e: Event): Talk {
    t.(events := t.events + [e])
  }

  function RunTool(t: Talk, call: ToolCall, answer: ToolRound): Talk {
    Append(Emit(Emit(t, ToolStarted(call.id)), ToolEnded(call.id, answer.isError)),
           Tool(call.id, call.name, answer.content, answer.isError), answer.stored)
  }

  /** The calls of one answer, from the k-th on. */
  function RunTools(t: Talk, calls: seq<ToolCall>, tools: nat -> ToolRound, k: nat): (Talk, Option<Err>)
    requires k <= |calls|
    decreases |calls| - k
  {
    if k == |calls| then (t, None)
    else if tools(k).over.Some? then (t, tools(k).over)
    else RunTools(RunTool(t, calls[k], tools(k)), calls, tools, k + 1)
  }

  /** maybeCompact: the list in memory changes before the store is asked. */
  function Compact(t: Talk, cfg: Config, c: Compaction): (Talk, Option<Err>) {
    if !NeedsCompaction(cfg, t.msgs) then (t, None)
    else
      match c
      case CompactFails(e) => (t, Some(e))
      case Folded(msgs, fails) =>
        var t' := t.(msgs := msgs);
        if t.log == None then (t', None)
        else if fails.Some? then (Noted(t', Replaced(false, msgs != t.msgs)), fails)
        else (Noted(t'.(log := Some(msgs)), Replaced(true, msgs != t.msgs)), None)
  }

  /** The talk after the answer of the model came in. */
  function Reply(t: Talk, text: string, calls: seq<ToolCall>, usage: Usage, stored: bool): Talk {
    Append(Emit(t.(usage := AddUsage(t.usage, usage)), UsageReport(usage)), Message.Assistant(text, calls), stored)
  }

  /** One round: the talk, and the ending if the loop stops here. */
  function RunRound(t: Talk, cfg: Config, r: Round): (Talk, Option<Ending>) {
    if r.over.Some? then (t, Some(Stopped(r.over.value)))
    else if r.before.Some? then (t, Some(Stopped(r.before.value)))
    else
      var (t1, failed) := Compact(t, cfg, r.compaction);
      if failed.Some? then (t1, Some(Stopped(failed.value)))
      else
        var t2 := t1.(modelCalls := t1.modelCalls + 1);
        match r.answer
        case CallFails(e) => (t2, Some(Stopped(e)))
        case Replies(_, _, _) => TakeAnswer(t2, r)
  }

  /** The rest of a round, with the answer of the model. */
  function TakeAnswer(t: Talk, r: Round): (Talk, Option<Ending>)
    requires r.answer.Replies?
  {
    var t' := Reply(t, r.answer.reply, r.answer.calls, r.answer.usage, r.stored);
    if r.answer.calls == [] then (t', Some(Ended("end_turn")))
    else
      var (t'', over) := RunTools(t', r.answer.calls, r.tools, 0);
      (t'', if over.Some? then Some(Stopped(over.value)) else None)
  }

  /** runTurn, from the i-th round on. */
  function RunRounds(t: Talk, cfg: Config, env: nat -> Round, i: nat): (Talk, Ending)
    requires i <= Limit(cfg)
    decreases Limit(cfg) - i
  {
    if i == Limit(cfg) then (t, Ended("max_turn_requests"))
    else
      var (t', ending) := RunRound(t, cfg, env(i));
      if ending.Some? then (t', ending.value) else RunRounds(t', cfg, env, i + 1)
  }

  /** The end of Prompt: at most one error event, one result, then idle. */
  function Close(t: Talk, ending: Ending): Talk {
    Emit(match ending
         case Ended(reason) => Emit(t, ResultEvent("success", reason))
         case Stopped(Cancelled) => Emit(t, ResultEvent("interrupted", "cancelled"))
         case Stopped(Other(error)) => Emit(Emit(t, ErrorEvent(error)), ResultEvent("error", "error")),
         Idle)
  }

  /** One whole prompt. */
  function Prompted(t: Talk, cfg: Config, parts: seq<Part>, stored: bool, env: nat -> Round): (Talk, Ending) {
    var (t', ending) := RunRounds(Emit(Append(t, User(parts), stored), Running), cfg, env, 0);
    (Close(t', ending), ending)
  }

  // ----------------------------------------------------------- the user message

  /** An attachment. `media` is the given media type, or the one of the path's
      extension; `file` is what reading the path gives, None where it fails. */
  datatype Attachment = Attachment(media: string, data: string, path: string, file: Option<string>)

  datatype PromptInput = PromptInput(text: string, attachments: seq<Attachment>)

  datatype Problem = NotAnImage(media: string) | Unreadable(path: string) | NoData

  datatype Loaded = Loaded(parts: seq<Part>) | NotLoaded(problem: Problem)

  datatype Outcome = Rejected(problem: Problem) | TurnActive | Ran(ending: Ending)

  /** The data wins over the path. */
  function LoadFile(a: Attachment): Loaded {
    if !("image/" <= a.media) then NotLoaded(NotAnImage(a.media))
    else if a.data != "" then Loaded([File(a.media, a.data)])
    else if a.path != "" && a.file == None then NotLoaded(Unreadable(a.path))
    else if a.path != "" && a.file.value != "" then Loaded([File(a.media, a.file.value)])
    else NotLoaded(NoData)
  }

  /** The files up to the first one that is refused. */
  function LoadFiles(attachments: seq<Attachment>): Loaded {
    if attachments == [] then Loaded([])
    else
      var before := LoadFiles(attachments[..|attachments| - 1]);
      var last := LoadFile(attachments[|attachments| - 1]);
      if before.NotLoaded? then before else if last.NotLoaded? then last else Loaded(before.parts + last.parts)
  }

  function Said(p: PromptInput): Loaded {
    var files := LoadFiles(p.attachments);
    if files.Loaded? && (p.text != "" || files.parts == []) then Loaded(files.parts + [Text(p.text)]) else files
  }

  lemma {:induction false} FirstFailureStays(attachments: seq<Attachment>, k: nat)
    requires k < |attachments| && LoadFiles(attachments[..k]).Loaded? && LoadFile(attachments[k]).NotLoaded?
    ensures LoadFiles(attachments) == LoadFile(attachments[k])
    decreases |attachments|
  {
    var front := attachments[..|attachments| - 1];
    if k < |front| {
      assert front[..k] == attachments[..k];
      FirstFailureStays(front, k);
    } else {
      assert attachments[..k] == front;
    }
  }

  /** An image with data of its own, or else data that can be read. */
  predicate IsGood(a: Attachment) {
    && |a.media| >= 6 && a.media[..6] == "image/"
    && (a.data != "" || (a.path != "" && a.file.Some? && a.file.value != ""))
  }

  lemma {:induction false} LoadIff(a: Attachment)
    ensures LoadFile(a).Loaded? <==> IsGood(a)
    ensures IsGood(a) ==> LoadFile(a) == Loaded([File(a.media, if a.data != "" then a.data else a.file.value)])
  {
    assert "image/" <= a.media <==> |a.media| >= 6 && a.media[..6] == "image/";
  }

  /** A prompt is built exactly when each attachment is an image whose data is given or
      can be read; then it has one image per attachment, in their order, and the text
      behind them unless it is empty and not alone. */
  lemma {:induction false} SaidIff(p: PromptInput)
    ensures Said(p).Loaded? <==> forall k :: 0 <= k < |p.attachments| ==> IsGood(p.attachments[k])
    ensures Said(p).Loaded? ==>
      var n := |p.attachments|;
      && n <= |Said(p).parts|
      && (forall k :: 0 <= k < n ==>
            var a := p.attachments[k];
            Said(p).parts[k] == File(a.media, if a.data != "" then a.data else a.file.value))
      && Said(p).parts[n..] == if p.text != "" || n == 0 then [Text(p.text)] else []
  {
    FilesIff(p.attachments);
  }

  lemma {:induction false} FilesIff(attachments: seq<Attachment>)
    ensures LoadFiles(attachments).Loaded? <==> forall k :: 0 <= k < |attachments| ==> IsGood(attachments[k])
    ensures LoadFiles(attachments).Loaded? ==>
      && |LoadFiles(attachments).parts| == |attachments|
      && forall k :: 0 <= k < |attachments| ==>
           var a := attachments[k];
           LoadFiles(attachments).parts[k] == File(a.media, if a.data != "" then a.data else a.file.value)
  {
    if attachments != [] {
      var front, last := attachments[..|attachments| - 1], attachments[|attachments| - 1];
      FilesIff(front);
      LoadIff(last);
      assert forall k :: 0 <= k < |front| ==> front[k] == attachments[k];
    }
  }

  // --------------------------------------------------------------- the objects

  /** native/store.go: the in-process store. */
  class MemoryStore {
    var logs: map<string, seq<Message>>

    constructor ()
      ensures logs == map[]
    {
      logs := map[];
    }

    /** Err is ErrNotFound. */
    method Load(id: string) returns (msgs: Option<seq<Message>>)
      ensures msgs == if id in logs then Some(logs[id]) else None
    {
      if id !in logs {
        return None;
      }
      return Some(logs[id]);
    }

    /** The log of a session, which is empty where there is none yet. */
    function LogOf(id: string): seq<Message>
      reads this
    {
      if id in logs then logs[id] else []
    }

    method Append(id: string, msgs: seq<Message>)
      modifies this
      ensures LogOf(id) == old(LogOf(id)) + msgs && logs == old(logs)[id := LogOf(id)]
    {
      logs := logs[id := (if id in logs then logs[id] else []) + msgs];
    }

    method Replace(id: string, msgs: seq<Message>)
      modifies this
      ensures LogOf(id) == msgs && logs == old(logs)[id := msgs]
    {
      logs := logs[id := msgs];
    }
  }

  /** native/session.go, over an optional store. */
  class Session {
    const id: string
    const cfg: Config
    const store: MemoryStore?
    var msgs: seq<Message>
    var usage: Usage
    var turnNo: nat
    var running: bool
    var err: Option<string>
    var events: seq<Event>
    ghost var modelCalls: nat
    ghost var asked: seq<StoreCall>
    ghost var inStep: bool

    ghost function State(): Talk
      reads this, store
    {
      Talk(msgs, if store == null then None else Some(store.LogOf(id)), usage, events, modelCalls, asked, inStep)
    }

    constructor (id: string, cfg: Config, store: MemoryStore?)
      ensures this.id == id && this.cfg == cfg && this.store == store
      ensures msgs == [] && usage == NO_USAGE && turnNo == 0 && !running && err == None && events == []
      ensures modelCalls == 0 && asked == [] && inStep
    {
      this.id, this.cfg, this.store := id, cfg, store;
      msgs, usage, turnNo, running, err, events := [], NO_USAGE, 0, false, None, [];
      modelCalls, asked, inStep := 0, [], true;
    }

    /** The driver opens a session with what the store has: a log that is not there is
        no error, and any other failure of the load is the failure of the opening. */
    static method Open(id: string, cfg: Config, store: MemoryStore?, loadFails: Option<string>)
      returns (s: Session?, error: Option<string>)
      ensures error == if store == null then None else loadFails
      ensures s == null <==> error.Some?
      ensures s != null ==>
        && fresh(s) && s.id == id && s.cfg == cfg && s.store == store && !s.running && s.err == None
        && s.State().asked == [] && s.State().inStep && Accounted(s.State())
        && (store == null ==> s.msgs == []) && (store != null ==> s.State().log == Some(s.msgs))
    {
      s := new Session(id, cfg, store);
      error := None;
      if store != null {
        if loadFails.Some? {
          return null, loadFails;
        }
        var loaded := store.Load(id);
        if loaded.Some? {
          s.msgs := loaded.value;
        }
      }
    }

    method AppendMessage(m: Message, stored: bool)
      modifies this`msgs, this`asked, this`inStep, store
      ensures State() == Append(old(State()), m, stored)
      ensures msgs == old(msgs) + [m]
      ensures store != null ==> store.LogOf(id) == old(store.LogOf(id)) + if stored then [m] else []
    {
      msgs := msgs + [m];
      if store != null {
        if stored {
          store.Append(id, [m]);
        }
        Note(Appended(stored));
      }
    }

    ghost method Note(call: StoreCall)
      requires store != null
      modifies this`asked, this`inStep
      ensures State() == Noted(old(State()), call)
    {
      asked, inStep := asked + [call], inStep && store.LogOf(id) == msgs;
    }

    method MaybeCompact(c: Compaction) returns (failed: Option<Err>)
      modifies this`msgs, this`asked, this`inStep, store
      ensures (State(), failed) == Compact(old(State()), cfg, c)
      ensures var past := cfg.compacts && cfg.contextTokens > 0
                          && TotalLength(old(msgs)) / 4 >= cfg.contextTokens * 60 / 100;
        && msgs == (if past && c.Folded? then c.msgs else old(msgs))
        && failed == (if !past then None else if c.CompactFails? then Some(c.error)
                      else if store == null then None else c.replaceFails)
        && (store != null ==>
              store.LogOf(id) == if past && c.Folded? && c.replaceFails == None then c.msgs else old(store.LogOf(id)))
    {
      if !NeedsCompaction(cfg, msgs) {
        return None;
      }
      match c {
        case CompactFails(e) => return Some(e);
        case Folded(folded, fails) =>
          ghost var changed := folded != msgs;
          msgs := folded;
          if store != null {
            if fails.Some? {
              Note(Replaced(false, changed));
              return fails;
            }
            store.Replace(id, folded);
            Note(Replaced(true, changed));
          }
          return None;
      }
    }

    method RunOneTool(call: ToolCall, answer: ToolRound)
      modifies this`msgs, this`events, this`asked, this`inStep, store
      ensures State() == RunTool(old(State()), call, answer)
    {
      events := events + [ToolStarted(call.id)];
      events := events + [ToolEnded(call.id, answer.isError)];
      AppendMessage(Tool(call.id, call.name, answer.content, answer.isError), answer.stored);
    }

    method RunCalls(calls: seq<ToolCall>, tools: nat -> ToolRound) returns (over: Option<Err>)
      modifies this`msgs, this`events, this`asked, this`inStep, store
      ensures (State(), over) == RunTools(old(State()), calls, tools, 0)
      ensures msgs == old(msgs) + ToolMessages(calls, tools, 0, Reached(calls, tools, 0))
      ensures events == old(events) + ToolEvents(calls, tools, 0, Reached(calls, tools, 0))
    {
      ToolsSay(State(), calls, tools, 0);
      for k := 0 to |calls|
        invariant RunTools(State(), calls, tools, k) == RunTools(old(State()), calls, tools, 0)
      {
        if tools(k).over.Some? {
          return tools(k).over;
        }
        RunOneTool(calls[k], tools(k));
      }
      return None;
    }

    method OneRound(r: Round) returns (ending: Option<Ending>)
      modifies this`msgs, this`events, this`usage, this`modelCalls, this`asked, this`inStep, store
      ensures (State(), ending) == RunRound(old(State()), cfg, r)
    {
      if r.over.Some? {
        return Some(Stopped(r.over.value));
      }
      if r.before.Some? {
        return Some(Stopped(r.before.value));
      }
      var failed := MaybeCompact(r.compaction);
      if failed.Some? {
        return Some(Stopped(failed.value));
      }
      modelCalls := modelCalls + 1;
      if r.answer.CallFails? {
        return Some(Stopped(r.answer.error));
      }
      ending := HandleAnswer(r);
    }

    method HandleAnswer(r: Round) returns (ending: Option<Ending>)
      requires r.answer.Replies?
      modifies this`msgs, this`events, this`usage, this`asked, this`inStep, store
      ensures (State(), ending) == TakeAnswer(old(State()), r)
    {
      usage := AddUsage(usage, r.answer.usage);
      events := events + [UsageReport(r.answer.usage)];
      AppendMessage(Message.Assistant(r.answer.reply, r.answer.calls), r.stored);
      if r.answer.calls == [] {
        return Some(Ended("end_turn"));
      }
      var over := RunCalls(r.answer.calls, r.tools);
      return if over.Some? then Some(Stopped(over.value)) else None;
    }

    method RunTurn(env: nat -> Round) returns (ending: Ending)
      modifies this`msgs, this`events, this`usage, this`modelCalls, this`asked, this`inStep, store
      ensures (State(), ending) == RunRounds(old(State()), cfg, env, 0)
    {
      for i := 0 to Limit(cfg)
        invariant RunRounds(State(), cfg, env, i) == RunRounds(old(State()), cfg, env, 0)
      {
        var stop := OneRound(env(i));
        if stop.Some? {
          return stop.value;
        }
      }
      return Ended("max_turn_requests");
    }

    /** One image per attachment, then the text, unless it is empty and not alone. */
    method UserMessage(p: PromptInput) returns (r: Loaded)
      ensures r == Said(p)
    {
      var parts: seq<Part> := [];
      for k := 0 to |p.attachments|
        invariant LoadFiles(p.attachments[..k]) == Loaded(parts)
      {
        var one := ReadAttachment(p.attachments[k]);
        if one.NotLoaded? {
          FirstFailureStays(p.attachments, k);
          return one;
        }
        assert p.attachments[..k + 1][..k] == p.attachments[..k];
        parts := parts + one.parts;
      }
      assert p.attachments[..|p.attachments|] == p.attachments;
      if p.text != "" || parts == [] {
        parts := parts + [Text(p.text)];
      }
      return Loaded(parts);
    }

    method ReadAttachment(a: Attachment) returns (r: Loaded)
      ensures r == LoadFile(a)
    {
      if !("image/" <= a.media) {
        return NotLoaded(NotAnImage(a.media));
      }
      var data := a.data;
      if data == "" && a.path != "" {
        if a.file == None {
          return NotLoaded(Unreadable(a.path));
        }
        data := a.file.value;
      }
      if data == "" {
        return NotLoaded(NoData);
      }
      return Loaded([File(a.media, data)]);
    }

    /** Prompt. A message that cannot be built, and a turn that still runs, change
        nothing. */
    method Prompt(p: PromptInput, stored: bool, env: nat -> Round) returns (outcome: Outcome)
      modifies this, store
      ensures outcome.Rejected? <==> Said(p).NotLoaded?
      ensures outcome.Rejected? ==> outcome.problem == Said(p).problem
      ensures outcome == TurnActive <==> Said(p).Loaded? && old(running)
      ensures !outcome.Ran? ==> State() == old(State()) && running == old(running) && turnNo == old(turnNo) && err == old(err)
      ensures outcome.Ran? ==>
        && !running && turnNo == old(turnNo) + 1
        && (State(), outcome.ending) == Prompted(old(State()), cfg, Said(p).parts, stored, env)
        && err == if old(err) == None && outcome.ending.Stopped? && outcome.ending.error.Other?
                  then Some(outcome.ending.error.error) else old(err)
    {
      var said := UserMessage(p);
      if said.NotLoaded? {
        return Rejected(said.problem);
      }
      if running {
        return TurnActive;
      }
      turnNo := turnNo + 1;
      var how := Accept(said.parts, stored, env);
      return Ran(how);
    }

    method Accept(parts: seq<Part>, stored: bool, env: nat -> Round) returns (how: Ending)
      modifies this`msgs, this`events, this`usage, this`running, this`err, this`modelCalls, this`asked, this`inStep, store
      ensures (State(), how) == Prompted(old(State()), cfg, parts, stored, env) && !running
      ensures err == if old(err) == None && how.Stopped? && how.error.Other? then Some(how.error.error) else old(err)
    {
      AppendMessage(User(parts), stored);
      running := true;
      events := events + [Running];
      how := RunTurn(env);
      Finish(how);
    }

    /** The end of a prompt. */
    method Finish(how: Ending)
      modifies this`events, this`running, this`err
      ensures State() == Close(old(State()), how) && !running
      ensures err == if old(err) == None && how.Stopped? && how.error.Other? then Some(how.error.error) else old(err)
    {
      match how {
        case Ended(reason) =>
          events := events + [ResultEvent("success", reason)];
        case Stopped(error) =>
          if error.Cancelled? {
            events := events + [ResultEvent("interrupted", "cancelled")];
          } else {
            if err == None {
              err := Some(error.error);
            }
            events := events + [ErrorEvent(error.error)];
            events := events + [ResultEvent("error", "error")];
          }
      }
      events := events + [Idle];
      running := false;
    }
  }

  // ------------------------------------------------------------ log and memory

  ghost predicate InSync(t: Talk) {
    t.log.Some? ==> t.log.value == t.msgs
  }

  /** A store call that keeps the log in step: an append that is stored, or a
      replacement that is taken or that changes nothing. */
  predicate Good(call: StoreCall) {
    match call
    case Appended(stored) => stored
    case Replaced(ok, changed) => ok || !changed
  }

  predicate AllGood(calls: seq<StoreCall>) {
    forall c :: c in calls ==> Good(c)
  }

  /** A replacement that the store refused, although the list was another one. */
  predicate Diverted(calls: seq<StoreCall>) {
    Replaced(false, true) in calls
  }

  /** The calls behind the last replacement that was taken. */
  function Since(calls: seq<StoreCall>): seq<StoreCall> {
    if calls == [] then []
    else
      var last := calls[|calls| - 1];
      if last.Replaced? && last.ok then [] else Since(calls[..|calls| - 1]) + [last]
  }

  /** What the calls say about the log, now and at every moment before. */
  ghost predicate Tracked(t: Talk) {
    t.log.Some? ==>
      && (t.inStep <==> AllGood(t.asked))
      && (t.inStep ==> t.log.value == t.msgs)
      && (!Diverted(Since(t.asked)) ==>
            |t.log.value| <= |t.msgs| && (t.log.value == t.msgs <==> AllGood(Since(t.asked))))
  }

  lemma {:induction false} SinceNext(calls: seq<StoreCall>, c: StoreCall)
    ensures AllGood(calls + [c]) <==> AllGood(calls) && Good(c)
    ensures c.Replaced? && c.ok ==> Since(calls + [c]) == []
    ensures !(c.Replaced? && c.ok) ==>
      && Since(calls + [c]) == Since(calls) + [c]
      && (AllGood(Since(calls + [c])) <==> AllGood(Since(calls)) && Good(c))
      && (Diverted(Since(calls + [c])) <==> Diverted(Since(calls)) || c == Replaced(false, true))
  {
    assert (calls + [c])[..|calls|] == calls;
    AllGoodNext(calls, c);
    AllGoodNext(Since(calls), c);
  }

  lemma {:induction false} AllGoodNext(calls: seq<StoreCall>, c: StoreCall)
    ensures AllGood(calls + [c]) <==> AllGood(calls) && Good(c)
  {
    assert c in calls + [c];
    assert forall d :: d in calls ==> d in calls + [c];
  }

  lemma {:induction false} AppendIsTracked(t: Talk, m: Message, stored: bool)
    requires Tracked(t)
    ensures Tracked(Append(t, m, stored))
  {
    if t.log.Some? {
      SinceNext(t.asked, Appended(stored));
      if stored {
        assert t.log.value + [m] == t.msgs + [m] ==> (t.log.value + [m])[..|t.log.value|] == (t.msgs + [m])[..|t.log.value|];
      }
    }
  }

  lemma {:induction false} CompactIsTracked(t: Talk, cfg: Config, c: Compaction)
    requires Tracked(t)
    ensures Tracked(Compact(t, cfg, c).0)
  {
    if t.log.Some? && c.Folded? {
      SinceNext(t.asked, Replaced(c.replaceFails == None, c.msgs != t.msgs));
    }
  }

  lemma {:induction false} ToolsAreTracked(t: Talk, calls: seq<ToolCall>, tools: nat -> ToolRound, k: nat)
    requires k <= |calls| && Tracked(t)
    ensures Tracked(RunTools(t, calls, tools, k).0)
    decreases |calls| - k
  {
    if k < |calls| && tools(k).over == None {
      var answer := tools(k);
      AppendIsTracked(Emit(Emit(t, ToolStarted(calls[k].id)), ToolEnded(calls[k].id, answer.isError)),
                      Tool(calls[k].id, calls[k].name, answer.content, answer.isError), answer.stored);
      ToolsAreTracked(RunTool(t, calls[k], answer), calls, tools, k + 1);
    }
  }

  lemma {:induction false} RoundIsTracked(t: Talk, cfg: Config, r: Round)
    requires Tracked(t)
    ensures Tracked(RunRound(t, cfg, r).0)
  {
    CompactIsTracked(t, cfg, r.compaction);
    if r.answer.Replies? {
      var t1 := Compact(t, cfg, r.compaction).0;
      var t2 := t1.(modelCalls := t1.modelCalls + 1);
      AppendIsTracked(Emit(t2.(usage := AddUsage(t2.usage, r.answer.usage)), UsageReport(r.answer.usage)),
                      Message.Assistant(r.answer.reply, r.answer.calls), r.stored);
      ToolsAreTracked(Reply(t2, r.answer.reply, r.answer.calls, r.answer.usage, r.stored), r.answer.calls, r.tools, 0);
    }
  }

  lemma {:induction false} RoundsAreTracked(t: Talk, cfg: Config, env: nat -> Round, i: nat)
    requires i <= Limit(cfg) && Tracked(t)
    ensures Tracked(RunRounds(t, cfg, env, i).0)
    decreases Limit(cfg) - i
  {
    if i < Limit(cfg) {
      var (t', ending) := RunRound(t, cfg, env(i));
      RoundIsTracked(t, cfg, env(i));
      if ending == None {
        RoundsAreTracked(t', cfg, env, i + 1);
      }
    }
  }

  /** The log misses a message. */
  predicate Behind(t: Talk) {
    t.log.Some? && |t.log.value| < |t.msgs|
  }

  lemma {:induction false} ToolsStayBehind(t: Talk, calls: seq<ToolCall>, tools: nat -> ToolRound, k: nat)
    requires k <= |calls| && Behind(t)
    ensures Behind(RunTools(t, calls, tools, k).0)
    decreases |calls| - k
  {
    if k < |calls| && tools(k).over == None {
      ToolsStayBehind(RunTool(t, calls[k], tools(k)), calls, tools, k + 1);
    }
  }

  lemma {:induction false} RoundsStayBehind(t: Talk, cfg: Config, env: nat -> Round, i: nat)
    requires i <= Limit(cfg) && !cfg.compacts && Behind(t)
    ensures Behind(RunRounds(t, cfg, env, i).0)
    decreases Limit(cfg) - i
  {
    if i < Limit(cfg) {
      var r := env(i);
      var (t', ending) := RunRound(t, cfg, r);
      if r.answer.Replies? {
        var t2 := t.(modelCalls := t.modelCalls + 1);
        ToolsStayBehind(Reply(t2, r.answer.reply, r.answer.calls, r.answer.usage, r.stored), r.answer.calls, r.tools, 0);
      }
      if ending == None {
        RoundsStayBehind(t', cfg, env, i + 1);
      }
    }
  }

  // -------------------------------------------------------------- calls and answers

  function Ids(calls: seq<ToolCall>): seq<string> {
    if calls == [] then [] else [calls[0].id] + Ids(calls[1..])
  }

  /** The calls that wait for their tool message, in order; None once a message came
      out of place. */
  function Expect(open: Option<seq<string>>, m: Message): Option<seq<string>> {
    if open == None then None
    else
      match m
      case User(_) => if open.value == [] then open else None
      case Assistant(_, calls) => if open.value == [] then Some(Ids(calls)) else None
      case Tool(id, _, _, _) => if open.value != [] && open.value[0] == id then Some(open.value[1..]) else None
  }

  function Walk(open: Option<seq<string>>, msgs: seq<Message>): Option<seq<string>> {
    if msgs == [] then open else Expect(Walk(open, msgs[..|msgs| - 1]), msgs[|msgs| - 1])
  }

  /** The calls that the list leaves unanswered. */
  function Waiting(msgs: seq<Message>): Option<seq<string>> {
    Walk(Some([]), msgs)
  }

  /** Each assistant message is followed by exactly one tool message per call, in call
      order, and a tool message stands nowhere else. */
  predicate Paired(msgs: seq<Message>) {
    Waiting(msgs) == Some([])
  }

  lemma {:induction false} WalkNext(open: Option<seq<string>>, msgs: seq<Message>, m: Message)
    ensures Walk(open, msgs + [m]) == Expect(Walk(open, msgs), m)
  {
    assert (msgs + [m])[..|msgs|] == msgs;
  }

  lemma {:induction false} WalkAppend(open: Option<seq<string>>, a: seq<Message>, b: seq<Message>)
    ensures Walk(open, a + b) == Walk(Walk(open, a), b)
  {
    if b == [] {
      assert a + b == a;
    } else {
      assert (a + b)[..|a + b| - 1] == a + b[..|b| - 1];
      WalkAppend(open, a, b[..|b| - 1]);
    }
  }

  /** The loop over the calls answers them all, unless the context ends: then the rest
      waits, and there is a rest. */
  lemma {:induction false} ToolsAnswer(t: Talk, calls: seq<ToolCall>, tools: nat -> ToolRound, k: nat)
    requires k <= |calls| && Waiting(t.msgs) == Some(Ids(calls[k..]))
    ensures var (t', over) := RunTools(t, calls, tools, k);
      && Waiting(t'.msgs).Some?
      && (over == None <==> Paired(t'.msgs))
    decreases |calls| - k
  {
    if k < |calls| {
      assert calls[k..][0] == calls[k] && calls[k..][1..] == calls[k + 1..];
      if tools(k).over == None {
        var answer := tools(k);
        WalkNext(Some([]), t.msgs, Tool(calls[k].id, calls[k].name, answer.content, answer.isError));
        ToolsAnswer(RunTool(t, calls[k], answer), calls, tools, k + 1);
      }
    }
  }

  /** What the compactor gives is paired. */
  ghost predicate PairedFolds(env: nat -> Round) {
    forall i :: env(i).compaction.Folded? ==> Paired(env(i).compaction.msgs)
  }

  /** The answer of the model and the tool messages on it. */
  lemma {:induction false} ReplyAnswers(t: Talk, r: Round)
    requires Paired(t.msgs) && r.answer.Replies?
    ensures var t' := Reply(t, r.answer.reply, r.answer.calls, r.answer.usage, r.stored);
      && (r.answer.calls == [] ==> Paired(t'.msgs))
      && var (t'', over) := RunTools(t', r.answer.calls, r.tools, 0);
         Waiting(t''.msgs).Some? && (over == None <==> Paired(t''.msgs))
  {
    var calls := r.answer.calls;
    WalkNext(Some([]), t.msgs, Message.Assistant(r.answer.reply, calls));
    assert calls[0..] == calls;
    ToolsAnswer(Reply(t, r.answer.reply, calls, r.answer.usage, r.stored), calls, r.tools, 0);
  }

  lemma {:induction false} CompactAnswers(t: Talk, cfg: Config, c: Compaction)
    requires Paired(t.msgs) && (c.Folded? ==> Paired(c.msgs))
    ensures Paired(Compact(t, cfg, c).0.msgs)
  {
  }

  lemma {:induction false} RoundAnswers(t: Talk, cfg: Config, r: Round)
    requires Paired(t.msgs) && (r.compaction.Folded? ==> Paired(r.compaction.msgs))
    ensures var (t', ending) := RunRound(t, cfg, r);
      && Waiting(t'.msgs).Some?
      && (ending == None || ending.value.Ended? ==> Paired(t'.msgs))
  {
    var (t1, failed) := Compact(t, cfg, r.compaction);
    CompactAnswers(t, cfg, r.compaction);
    if r.answer.Replies? {
      ReplyAnswers(t1.(modelCalls := t1.modelCalls + 1), r);
    }
  }

  lemma {:induction false} RoundsAnswer(t: Talk, cfg: Config, env: nat -> Round, i: nat)
    requires i <= Limit(cfg) && Paired(t.msgs) && PairedFolds(env)
    ensures var (t', ending) := RunRounds(t, cfg, env, i);
      Waiting(t'.msgs).Some? && (ending.Ended? ==> Paired(t'.msgs))
    decreases Limit(cfg) - i
  {
    if i < Limit(cfg) {
      var (t', ending) := RunRound(t, cfg, env(i));
      RoundAnswers(t, cfg, env(i));
      if ending == None {
        RoundsAnswer(t', cfg, env, i + 1);
      }
    }
  }

  /** A prompt on a list that waits for a tool message breaks the pairs for good. */
  lemma {:induction false} PromptIsPairedIff(msgs: seq<Message>, parts: seq<Part>, more: seq<Message>)
    ensures Paired(msgs + [User(parts)]) <==> Paired(msgs)
    ensures Waiting(msgs).Some? && !Paired(msgs) ==> Waiting(msgs + [User(parts)] + more) == None
  {
    WalkNext(Some([]), msgs, User(parts));
    if Waiting(msgs + [User(parts)]) == None {
      WalkAppend(Some([]), msgs + [User(parts)], more);
      BrokenStays(more);
    }
  }

  lemma {:induction false} BrokenStays(msgs: seq<Message>)
    ensures Walk(None, msgs) == None
  {
    if msgs != [] {
      BrokenStays(msgs[..|msgs| - 1]);
    }
  }

  // ----------------------------------------------------------------- compaction

  /** SummaryCompactor (native/compact.go): one user message with the summary, then the
      last messages as they are. */
  function Summarized(summary: string, keepLast: nat, msgs: seq<Message>): seq<Message> {
    var keep := if keepLast < 1 then 1 else keepLast;
    if |msgs| <= keep + 1 then msgs else [User([Text(summary)])] + msgs[|msgs| - keep..]
  }

  /** A summary keeps the pairs exactly when it does not cut between an assistant
      message and its tool messages: when the first message it keeps is no tool
      message. */
  lemma {:induction false} SummaryIsPairedIff(summary: string, keepLast: nat, msgs: seq<Message>)
    requires Paired(msgs)
    ensures var out := Summarized(summary, keepLast, msgs);
      Paired(out) <==> out == msgs || !out[1].Tool?
  {
    var keep := if keepLast < 1 then 1 else keepLast;
    if |msgs| > keep + 1 {
      var head, tail := msgs[..|msgs| - keep], msgs[|msgs| - keep..];
      assert msgs == head + tail;
      WalkAppend(Some([]), head, tail);
      WalkAppend(Some([]), [User([Text(summary)])], tail);
      WalkNext(Some([]), [], User([Text(summary)]));
      assert [] + [User([Text(summary)])] == [User([Text(summary)])];
      FirstStep(Waiting(head), tail);
      FirstStep(Some([]), tail);
    }
  }

  /** A list can only go on from a state that its first message fits. */
  lemma {:induction false} FirstStep(open: Option<seq<string>>, msgs: seq<Message>)
    requires msgs != []
    ensures Walk(open, msgs) == Walk(Expect(open, msgs[0]), msgs[1..])
    ensures Expect(open, msgs[0]) == None ==> Walk(open, msgs) == None
  {
    assert msgs == [msgs[0]] + msgs[1..];
    WalkAppend(open, [msgs[0]], msgs[1..]);
    WalkNext(open, [], msgs[0]);
    assert [] + [msgs[0]] == [msgs[0]];
    BrokenStays(msgs[1..]);
  }

  // ------------------------------------------------------- model calls, usage, events

  lemma {:induction false} ToolsCallNoModel(t: Talk, calls: seq<ToolCall>, tools: nat -> ToolRound, k: nat)
    requires k <= |calls|
    ensures var t' := RunTools(t, calls, tools, k).0; t'.modelCalls == t.modelCalls && t'.usage == t.usage
    decreases |calls| - k
  {
    if k < |calls| && tools(k).over == None {
      ToolsCallNoModel(RunTool(t, calls[k], tools(k)), calls, tools, k + 1);
    }
  }

  lemma {:induction false} RoundCallsOnce(t: Talk, cfg: Config, r: Round)
    ensures var (t', ending) := RunRound(t, cfg, r);
      t.modelCalls <= t'.modelCalls <= t.modelCalls + 1 && (ending == None ==> t'.modelCalls == t.modelCalls + 1)
  {
    var t1 := Compact(t, cfg, r.compaction).0;
    if r.answer.Replies? {
      var t2 := t1.(modelCalls := t1.modelCalls + 1);
      ToolsCallNoModel(Reply(t2, r.answer.reply, r.answer.calls, r.answer.usage, r.stored), r.answer.calls, r.tools, 0);
    }
  }

  /** A prompt makes at most Limit model calls, and all of them where it says that it
      ran out of them. */
  lemma {:induction false} ModelCallsAreBounded(t: Talk, cfg: Config, env: nat -> Round, i: nat)
    requires i <= Limit(cfg)
    ensures var (t', ending) := RunRounds(t, cfg, env, i);
      && t.modelCalls <= t'.modelCalls <= t.modelCalls + Limit(cfg) - i
      && (ending == Ended("max_turn_requests") ==> t'.modelCalls == t.modelCalls + Limit(cfg) - i)
    decreases Limit(cfg) - i
  {
    if i < Limit(cfg) {
      var (t', ending) := RunRound(t, cfg, env(i));
      RoundCallsOnce(t, cfg, env(i));
      if ending == None {
        ModelCallsAreBounded(t', cfg, env, i + 1);
      } else {
        RoundNeverRunsOut(t, cfg, env(i));
      }
    }
  }

  lemma {:induction false} RoundNeverRunsOut(t: Talk, cfg: Config, r: Round)
    ensures RunRound(t, cfg, r).1 != Some(Ended("max_turn_requests"))
  {
    assert "end_turn" != "max_turn_requests";
  }

  function Reported(events: seq<Event>): Usage {
    if events == [] then NO_USAGE
    else
      var e := events[|events| - 1];
      var before := Reported(events[..|events| - 1]);
      if e.UsageReport? then AddUsage(before, e.usage) else before
  }

  function Results(events: seq<Event>): nat {
    if events == [] then 0
    else Results(events[..|events| - 1]) + if events[|events| - 1].ResultEvent? then 1 else 0
  }

  lemma {:induction false} EmitReports(t: Talk, e: Event)
    ensures Reported(Emit(t, e).events) == if e.UsageReport? then AddUsage(Reported(t.events), e.usage) else Reported(t.events)
    ensures Results(Emit(t, e).events) == Results(t.events) + if e.ResultEvent? then 1 else 0
  {
    assert (t.events + [e])[..|t.events|] == t.events;
  }

  /** The usage of the session is what its events reported. */
  ghost predicate Accounted(t: Talk) {
    t.usage == Reported(t.events)
  }

  lemma {:induction false} ToolsAreFree(t: Talk, calls: seq<ToolCall>, tools: nat -> ToolRound, k: nat)
    requires k <= |calls| && Accounted(t)
    ensures var t' := RunTools(t, calls, tools, k).0; Accounted(t') && Results(t'.events) == Results(t.events)
    decreases |calls| - k
  {
    if k < |calls| && tools(k).over == None {
      EmitReports(t, ToolStarted(calls[k].id));
      EmitReports(Emit(t, ToolStarted(calls[k].id)), ToolEnded(calls[k].id, tools(k).isError));
      ToolsAreFree(RunTool(t, calls[k], tools(k)), calls, tools, k + 1);
    }
  }

  lemma {:induction false} ReplyIsAccounted(t: Talk, r: Round)
    requires Accounted(t) && r.answer.Replies?
    ensures var t' := Reply(t, r.answer.reply, r.answer.calls, r.answer.usage, r.stored);
      && Accounted(t') && Results(t'.events) == Results(t.events)
      && var t'' := RunTools(t', r.answer.calls, r.tools, 0).0;
         Accounted(t'') && Results(t''.events) == Results(t.events)
  {
    EmitReports(t.(usage := AddUsage(t.usage, r.answer.usage)), UsageReport(r.answer.usage));
    ToolsAreFree(Reply(t, r.answer.reply, r.answer.calls, r.answer.usage, r.stored), r.answer.calls, r.tools, 0);
  }

  lemma {:induction false} CompactIsFree(t: Talk, cfg: Config, c: Compaction)
    ensures var t' := Compact(t, cfg, c).0; t'.usage == t.usage && t'.events == t.events
  {
  }

  lemma {:induction false} RoundIsAccounted(t: Talk, cfg: Config, r: Round)
    requires Accounted(t)
    ensures var t' := RunRound(t, cfg, r).0; Accounted(t') && Results(t'.events) == Results(t.events)
  {
    CompactIsFree(t, cfg, r.compaction);
    if r.answer.Replies? {
      var t1 := Compact(t, cfg, r.compaction).0;
      ReplyIsAccounted(t1.(modelCalls := t1.modelCalls + 1), r);
    }
  }

  lemma {:induction false} RoundsAreAccounted(t: Talk, cfg: Config, env: nat -> Round, i: nat)
    requires i <= Limit(cfg) && Accounted(t)
    ensures var t' := RunRounds(t, cfg, env, i).0; Accounted(t') && Results(t'.events) == Results(t.events)
    decreases Limit(cfg) - i
  {
    if i < Limit(cfg) {
      var (t', ending) := RunRound(t, cfg, env(i));
      RoundIsAccounted(t, cfg, env(i));
      if ending == None {
        RoundsAreAccounted(t', cfg, env, i + 1);
      }
    }
  }

  lemma {:induction false} ToolsExtend(t: Talk, calls: seq<ToolCall>, tools: nat -> ToolRound, k: nat)
    requires k <= |calls|
    ensures t.msgs <= RunTools(t, calls, tools, k).0.msgs
    decreases |calls| - k
  {
    if k < |calls| && tools(k).over == None {
      ToolsExtend(RunTool(t, calls[k], tools(k)), calls, tools, k + 1);
    }
  }

  /** Without a compactor a turn only adds to the conversation. */
  lemma {:induction false} RoundsExtend(t: Talk, cfg: Config, env: nat -> Round, i: nat)
    requires i <= Limit(cfg) && !cfg.compacts
    ensures t.msgs <= RunRounds(t, cfg, env, i).0.msgs
    decreases Limit(cfg) - i
  {
    if i < Limit(cfg) {
      var r := env(i);
      var (t', ending) := RunRound(t, cfg, r);
      if r.answer.Replies? {
        var t2 := t.(modelCalls := t.modelCalls + 1);
        ToolsExtend(Reply(t2, r.answer.reply, r.answer.calls, r.answer.usage, r.stored), r.answer.calls, r.tools, 0);
      }
      if ending == None {
        RoundsExtend(t', cfg, env, i + 1);
      }
    }
  }

  // --------------------------------------------------------------- whole sessions

  /** One prompt says one result, and idle behind it, however it ends. */
  lemma {:induction false} OneResultPerPrompt(t: Talk, cfg: Config, parts: seq<Part>, stored: bool, env: nat -> Round)
    requires Accounted(t)
    ensures var t' := Prompted(t, cfg, parts, stored, env).0;
      && Accounted(t') && Results(t'.events) == Results(t.events) + 1
      && |t'.events| >= 2 && t'.events[|t'.events| - 1] == Idle && t'.events[|t'.events| - 2].ResultEvent?
  {
    var t0 := Emit(Append(t, User(parts), stored), Running);
    StartReports(t, parts, stored);
    RoundsAreAccounted(t0, cfg, env, 0);
    var (t1, ending) := RunRounds(t0, cfg, env, 0);
    CloseReports(t1, ending);
  }

  lemma {:induction false} StartReports(t: Talk, parts: seq<Part>, stored: bool)
    requires Accounted(t)
    ensures var t0 := Emit(Append(t, User(parts), stored), Running);
      Accounted(t0) && Results(t0.events) == Results(t.events)
  {
    EmitReports(Append(t, User(parts), stored), Running);
  }

  lemma {:induction false} CloseReports(t: Talk, ending: Ending)
    requires Accounted(t)
    ensures var t' := Close(t, ending);
      && Accounted(t') && Results(t'.events) == Results(t.events) + 1
      && |t'.events| >= 2 && t'.events[|t'.events| - 1] == Idle && t'.events[|t'.events| - 2].ResultEvent?
  {
    match ending {
      case Ended(reason) =>
        EmitReports(t, ResultEvent("success", reason));
        EmitReports(Emit(t, ResultEvent("success", reason)), Idle);
      case Stopped(Cancelled) =>
        EmitReports(t, ResultEvent("interrupted", "cancelled"));
        EmitReports(Emit(t, ResultEvent("interrupted", "cancelled")), Idle);
      case Stopped(Other(error)) =>
        var t1 := Emit(t, ErrorEvent(error));
        EmitReports(t, ErrorEvent(error));
        EmitReports(t1, ResultEvent("error", "error"));
        EmitReports(Emit(t1, ResultEvent("error", "error")), Idle);
    }
  }

  datatype Turn = Turn(parts: seq<Part>, stored: bool, env: nat -> Round)

  /** The talk after some prompts. */
  function Prompts(t: Talk, cfg: Config, turns: seq<Turn>): Talk {
    if turns == [] then t
    else
      var turn := turns[|turns| - 1];
      Prompted(Prompts(t, cfg, turns[..|turns| - 1]), cfg, turn.parts, turn.stored, turn.env).0
  }

  /** Every prompt ends by itself, not by an error or a cancel. */
  ghost predicate AllEnd(t: Talk, cfg: Config, turns: seq<Turn>) {
    turns != [] ==>
      var before, turn := turns[..|turns| - 1], turns[|turns| - 1];
      && AllEnd(t, cfg, before)
      && Prompted(Prompts(t, cfg, before), cfg, turn.parts, turn.stored, turn.env).1.Ended?
  }

  lemma {:induction false} PromptsAreTracked(t: Talk, cfg: Config, turns: seq<Turn>)
    requires Tracked(t)
    ensures Tracked(Prompts(t, cfg, turns))
  {
    if turns != [] {
      var turn := turns[|turns| - 1];
      var before := Prompts(t, cfg, turns[..|turns| - 1]);
      PromptsAreTracked(t, cfg, turns[..|turns| - 1]);
      PromptIsTracked(before, cfg, turn.parts, turn.stored, turn.env);
    }
  }

  lemma {:induction false} PromptIsTracked(t: Talk, cfg: Config, parts: seq<Part>, stored: bool, env: nat -> Round)
    requires Tracked(t)
    ensures Tracked(Prompted(t, cfg, parts, stored, env).0)
  {
    AppendIsTracked(t, User(parts), stored);
    var t0 := Emit(Append(t, User(parts), stored), Running);
    RoundsAreTracked(t0, cfg, env, 0);
    var (t1, ending) := RunRounds(t0, cfg, env, 0);
    CloseIsTracked(t1, ending);
  }

  lemma {:induction false} CloseIsTracked(t: Talk, ending: Ending)
    requires Tracked(t)
    ensures Tracked(Close(t, ending))
  {
    var t' := Close(t, ending);
    assert t'.msgs == t.msgs && t'.log == t.log && t'.asked == t.asked && t'.inStep == t.inStep;
  }

  /** A talk as it is opened. */
  ghost predicate Opened(t: Talk) {
    t.log == Some(t.msgs) && t.asked == [] && t.inStep
  }

  /** Over any number of prompts, with any compactor: the log was the list in memory
      behind every call of the store exactly when each append that was made was stored,
      and each replacement that changed the list was taken. Calls that the environment
      would have refused, but that no prompt came to, do not matter. */
  lemma {:induction false} LogFollowsMemoryIff(t: Talk, cfg: Config, turns: seq<Turn>)
    requires Opened(t)
    ensures var t' := Prompts(t, cfg, turns);
      && (t'.inStep <==> AllGood(t'.asked))
      && (t'.inStep ==> InSync(t'))
  {
    PromptsAreTracked(t, cfg, turns);
    PromptsOnlyAppend(t, cfg, turns);
  }

  /** At the end of the prompts only the calls behind the last replacement that was
      taken count: where the store refused no other list since, the log is the list in
      memory exactly when every append since was stored. */
  lemma {:induction false} LogIsMemoryIff(t: Talk, cfg: Config, turns: seq<Turn>)
    requires Opened(t)
    ensures var t' := Prompts(t, cfg, turns);
      !Diverted(Since(t'.asked)) ==> (InSync(t') <==> forall c :: c in Since(t'.asked) && c.Appended? ==> c.stored)
  {
    PromptsAreTracked(t, cfg, turns);
    PromptsOnlyAppend(t, cfg, turns);
    var since := Since(Prompts(t, cfg, turns).asked);
    assert !Diverted(since) ==> (AllGood(since) <==> forall c :: c in since && c.Appended? ==> c.stored) by {
      assert forall c :: c in since && c.Replaced? && !Good(c) ==> c == Replaced(false, true);
    }
  }

  /** Without a compactor that is every append of the session: one that the store
      refuses, at whatever place in a turn, and the log differs from then on. */
  lemma {:induction false} NoCompactorInSyncIff(t: Talk, cfg: Config, turns: seq<Turn>)
    requires Opened(t) && !cfg.compacts
    ensures var t' := Prompts(t, cfg, turns);
      InSync(t') <==> forall c :: c in t'.asked ==> c == Appended(true)
  {
    LogIsMemoryIff(t, cfg, turns);
    PromptsOnlyAppend(t, cfg, turns);
    AppendsCountAll(Prompts(t, cfg, turns).asked);
  }

  predicate OnlyAppends(calls: seq<StoreCall>) {
    forall c :: c in calls ==> c.Appended?
  }

  lemma {:induction false} AppendsCountAll(calls: seq<StoreCall>)
    requires OnlyAppends(calls)
    ensures Since(calls) == calls
  {
    if calls != [] {
      assert calls[|calls| - 1] in calls;
      AppendsCountAll(calls[..|calls| - 1]);
      assert calls[..|calls| - 1] + [calls[|calls| - 1]] == calls;
    }
  }

  lemma {:induction false} ToolsOnlyAppend(t: Talk, calls: seq<ToolCall>, tools: nat -> ToolRound, k: nat)
    requires k <= |calls|
    ensures var t' := RunTools(t, calls, tools, k).0;
      (OnlyAppends(t.asked) ==> OnlyAppends(t'.asked)) && (t.log.Some? <==> t'.log.Some?)
    decreases |calls| - k
  {
    if k < |calls| && tools(k).over == None {
      ToolsOnlyAppend(RunTool(t, calls[k], tools(k)), calls, tools, k + 1);
    }
  }

  lemma {:induction false} RoundsOnlyAppend(t: Talk, cfg: Config, env: nat -> Round, i: nat)
    requires i <= Limit(cfg)
    ensures var t' := RunRounds(t, cfg, env, i).0;
      (!cfg.compacts && OnlyAppends(t.asked) ==> OnlyAppends(t'.asked)) && (t.log.Some? <==> t'.log.Some?)
    decreases Limit(cfg) - i
  {
    if i < Limit(cfg) {
      var (t', ending) := RunRound(t, cfg, env(i));
      RoundOnlyAppends(t, cfg, env(i));
      if ending == None {
        RoundsOnlyAppend(t', cfg, env, i + 1);
      }
    }
  }

  lemma {:induction false} RoundOnlyAppends(t: Talk, cfg: Config, r: Round)
    ensures var t' := RunRound(t, cfg, r).0;
      (!cfg.compacts && OnlyAppends(t.asked) ==> OnlyAppends(t'.asked)) && (t.log.Some? <==> t'.log.Some?)
  {
    if r.answer.Replies? {
      var t1 := Compact(t, cfg, r.compaction).0;
      var t2 := t1.(modelCalls := t1.modelCalls + 1);
      ToolsOnlyAppend(Reply(t2, r.answer.reply, r.answer.calls, r.answer.usage, r.stored), r.answer.calls, r.tools, 0);
    }
  }

  lemma {:induction false} PromptsOnlyAppend(t: Talk, cfg: Config, turns: seq<Turn>)
    ensures var t' := Prompts(t, cfg, turns);
      (!cfg.compacts && OnlyAppends(t.asked) ==> OnlyAppends(t'.asked)) && (t.log.Some? <==> t'.log.Some?)
  {
    if turns != [] {
      var turn := turns[|turns| - 1];
      var before := Prompts(t, cfg, turns[..|turns| - 1]);
      PromptsOnlyAppend(t, cfg, turns[..|turns| - 1]);
      RoundsOnlyAppend(Emit(Append(before, User(turn.parts), turn.stored), Running), cfg, turn.env, 0);
    }
  }

  /** A log that misses a message is not made up for: appendLocked drops the error, and
      without a compactor the log stays behind for good. */
  lemma {:induction false} MissedAppendStaysMissed(t: Talk, cfg: Config, turns: seq<Turn>)
    requires Behind(t) && !cfg.compacts
    ensures Behind(Prompts(t, cfg, turns))
  {
    if turns != [] {
      var turn := turns[|turns| - 1];
      var before := Prompts(t, cfg, turns[..|turns| - 1]);
      MissedAppendStaysMissed(t, cfg, turns[..|turns| - 1]);
      RoundsStayBehind(Emit(Append(before, User(turn.parts), turn.stored), Running), cfg, turn.env, 0);
    }
  }

  /** Over any number of prompts that end by themselves every call is answered once, in
      order, directly behind its message, where the compactor keeps the pairs. */
  lemma {:induction false} EveryCallIsAnswered(t: Talk, cfg: Config, turns: seq<Turn>)
    requires Paired(t.msgs) && AllEnd(t, cfg, turns)
    requires forall i :: 0 <= i < |turns| ==> PairedFolds(turns[i].env)
    ensures Paired(Prompts(t, cfg, turns).msgs)
  {
    if turns != [] {
      var turn := turns[|turns| - 1];
      var before := Prompts(t, cfg, turns[..|turns| - 1]);
      EveryCallIsAnswered(t, cfg, turns[..|turns| - 1]);
      PromptIsPairedIff(before.msgs, turn.parts, []);
      RoundsAnswer(Emit(Append(before, User(turn.parts), turn.stored), Running), cfg, turn.env, 0);
    }
  }

  /** Over any number of prompts the usage is what the events reported, and there is
      one result per prompt. */
  lemma {:induction false} UsageIsConserved(t: Talk, cfg: Config, turns: seq<Turn>)
    requires Accounted(t)
    ensures Accounted(Prompts(t, cfg, turns))
    ensures Results(Prompts(t, cfg, turns).events) == Results(t.events) + |turns|
  {
    if turns != [] {
      var turn := turns[|turns| - 1];
      UsageIsConserved(t, cfg, turns[..|turns| - 1]);
      OneResultPerPrompt(Prompts(t, cfg, turns[..|turns| - 1]), cfg, turn.parts, turn.stored, turn.env);
    }
  }

  /** One prompt makes at most Limit model calls. */
  lemma {:induction false} PromptIsBounded(t: Talk, cfg: Config, parts: seq<Part>, stored: bool, env: nat -> Round)
    ensures var (t', ending) := Prompted(t, cfg, parts, stored, env);
      && t.modelCalls <= t'.modelCalls <= t.modelCalls + (if cfg.maxTurns > 0 then cfg.maxTurns else 20)
      && (ending == Ended("max_turn_requests") ==> t'.modelCalls == t.modelCalls + if cfg.maxTurns > 0 then cfg.maxTurns else 20)
  {
    ModelCallsAreBounded(Emit(Append(t, User(parts), stored), Running), cfg, env, 0);
  }

  // ------------------------------------------------------- what a conversation says

  /** How many of the calls run: those before the first one at which the context has
      ended. */
  function Reached(calls: seq<ToolCall>, tools: nat -> ToolRound, k: nat): (n: nat)
    requires k <= |calls|
    ensures k <= n <= |calls|
    ensures forall j :: k <= j < n ==> tools(j).over == None
    ensures n < |calls| ==> tools(n).over.Some?
    decreases |calls| - k
  {
    if k == |calls| || tools(k).over.Some? then k else Reached(calls, tools, k + 1)
  }

  /** The tool messages of the calls from the k-th to before the n-th. */
  function ToolMessages(calls: seq<ToolCall>, tools: nat -> ToolRound, k: nat, n: nat): seq<Message>
    requires k <= n <= |calls|
  {
    seq(n - k, j requires 0 <= j < n - k =>
      Tool(calls[k + j].id, calls[k + j].name, tools(k + j).content, tools(k + j).isError))
  }

  /** A started and an ended event for each of them. */
  function ToolEvents(calls: seq<ToolCall>, tools: nat -> ToolRound, k: nat, n: nat): seq<Event>
    requires k <= n <= |calls|
  {
    seq(2 * (n - k), j requires 0 <= j < 2 * (n - k) =>
      if j % 2 == 0 then ToolStarted(calls[k + j / 2].id) else ToolEnded(calls[k + j / 2].id, tools(k + j / 2).isError))
  }

  lemma {:induction false} FirstTool(calls: seq<ToolCall>, tools: nat -> ToolRound, k: nat, n: nat)
    requires k < n <= |calls|
    ensures ToolMessages(calls, tools, k, n) ==
      [Tool(calls[k].id, calls[k].name, tools(k).content, tools(k).isError)] + ToolMessages(calls, tools, k + 1, n)
    ensures ToolEvents(calls, tools, k, n) ==
      [ToolStarted(calls[k].id), ToolEnded(calls[k].id, tools(k).isError)] + ToolEvents(calls, tools, k + 1, n)
  {
    var first := [ToolStarted(calls[k].id), ToolEnded(calls[k].id, tools(k).isError)];
    var all, rest := ToolEvents(calls, tools, k, n), ToolEvents(calls, tools, k + 1, n);
    forall j | 0 <= j < |all| ensures all[j] == (first + rest)[j] {
      if j >= 2 {
        assert k + j / 2 == k + 1 + (j - 2) / 2 && j % 2 == (j - 2) % 2;
      }
    }
  }

  /** Each call that runs is answered by one tool message with the id, the name and what
      the tool said, and by a started and an ended event. */
  lemma {:induction false} ToolsSay(t: Talk, calls: seq<ToolCall>, tools: nat -> ToolRound, k: nat)
    requires k <= |calls|
    ensures var (t', over) := RunTools(t, calls, tools, k);
      var n := Reached(calls, tools, k);
      && t'.msgs == t.msgs + ToolMessages(calls, tools, k, n)
      && t'.events == t.events + ToolEvents(calls, tools, k, n)
      && over == if n < |calls| then tools(n).over else None
    decreases |calls| - k
  {
    var n := Reached(calls, tools, k);
    if k < n {
      var t1 := RunTool(t, calls[k], tools(k));
      ToolsSay(t1, calls, tools, k + 1);
      FirstTool(calls, tools, k, n);
      var m := Tool(calls[k].id, calls[k].name, tools(k).content, tools(k).isError);
      var e := [ToolStarted(calls[k].id), ToolEnded(calls[k].id, tools(k).isError)];
      assert t1.msgs == t.msgs + [m] && t1.events == t.events + e;
      SumAssociates(t.msgs, [m], ToolMessages(calls, tools, k + 1, n));
      SumAssociates(t.events, e, ToolEvents(calls, tools, k + 1, n));
    }
  }
}
