/** native/provider/anthropic/anthropic.go: the event stream of a model call, whose
    tool_use blocks open, grow and stop by index. */
module AnthropicStream {
  import opened Collections
  import opened ModelStream

  datatype Event =
    | MessageStart(usage: Usage)
    | BlockStart(index: int, toolUse: bool, id: string, name: string)
    | TextPiece(text: string)
    | ThinkingPiece(thought: string)
    | InputPiece(index: int, json: string)
    | BlockStop(index: int)
    | MessageDelta(stop: string, delta: Usage)
    | OtherEvent

  /** finishReason. */
  function FinishReason(stop: string): Reason {
    if stop == "end_turn" then FinishStop
    else if stop == "max_tokens" then FinishLength
    else if stop == "tool_use" then FinishToolCalls
    else if stop == "refusal" then FinishRefusal
    else FinishOther
  }

  /** The usage of a message_delta is cumulative: a count that is not zero replaces
      the one before. */
  function Supersede(u: Usage, d: Usage): Usage {
    Usage(if d.input != 0 then d.input else u.input,
          if d.output != 0 then d.output else u.output,
          if d.cacheRead != 0 then d.cacheRead else u.cacheRead,
          if d.cacheWrite != 0 then d.cacheWrite else u.cacheWrite,
          u.reasoning)
  }

  // ---------------------------------------------------------- one block, on its own

  datatype Block = Block(id: string, name: string, input: string)

  /** The events that concern the block with an index. */
  predicate Concerns(e: Event, index: int) {
    || (e.BlockStart? && e.toolUse && e.index == index)
    || (e.InputPiece? && e.index == index)
    || (e.BlockStop? && e.index == index)
  }

  function Only(events: seq<Event>, index: int): seq<Event> {
    if events == [] then []
    else
      var e := events[|events| - 1];
      Only(events[..|events| - 1], index) + if Concerns(e, index) then [e] else []
  }

  /** The block that its own events leave open. */
  function OpenBlock(own: seq<Event>): Option<Block> {
    if own == [] then None
    else
      var before := OpenBlock(own[..|own| - 1]);
      match own[|own| - 1]
      case BlockStart(_, _, id, name) => Some(Block(id, name, ""))
      case InputPiece(_, json) =>
        if before.Some? then Some(before.value.(input := before.value.input + json)) else None
      case BlockStop(_) => None
      case _ => before
  }

  function JoinedInput(pieces: seq<string>): string {
    if pieces == [] then "" else JoinedInput(pieces[..|pieces| - 1]) + pieces[|pieces| - 1]
  }

  function InputEvents(index: int, pieces: seq<string>): seq<Event> {
    if pieces == [] then []
    else InputEvents(index, pieces[..|pieces| - 1]) + [InputPiece(index, pieces[|pieces| - 1])]
  }

  /** A block that was started and then grew holds all its pieces, joined. */
  lemma {:induction false} StartedAndGrown(own: seq<Event>, index: int, id: string, name: string, pieces: seq<string>)
    ensures OpenBlock(own + [BlockStart(index, true, id, name)] + InputEvents(index, pieces)) ==
      Some(Block(id, name, JoinedInput(pieces)))
  {
    var start := own + [BlockStart(index, true, id, name)];
    if pieces == [] {
      assert start + [] == start && start[..|own|] == own;
    } else {
      var before := pieces[..|pieces| - 1];
      StartedAndGrown(own, index, id, name, before);
      var all := start + InputEvents(index, pieces);
      assert all == start + InputEvents(index, before) + [InputPiece(index, pieces[|pieces| - 1])];
      assert all[..|all| - 1] == start + InputEvents(index, before);
    }
  }

  // ------------------------------------------------------------- the fold, as a spec

  /** The call of a block at its stop. No input at all is written as an empty object. */
  function CallOf(b: Block): ToolCall {
    ToolCall(b.id, b.name, if b.input == "" then "{}" else b.input)
  }

  /** The parts an event gives, after the events before it. A piece of input and a stop
      look only at the events of their own block. */
  function PartsOf(before: seq<Event>, e: Event): seq<Part> {
    match e
    case BlockStart(_, toolUse, id, _) => if toolUse then [ToolInputStart(id)] else []
    case TextPiece(text) => [TextDelta(text)]
    case ThinkingPiece(thought) => [ReasoningDelta(thought)]
    case InputPiece(index, json) =>
      (match OpenBlock(Only(before, index))
       case None => []
       case Some(b) => [ToolInputDelta(b.id, json)])
    case BlockStop(index) =>
      (match OpenBlock(Only(before, index))
       case None => []
       case Some(b) => [ToolCallDone(Some(CallOf(b)))])
    case _ => []
  }

  function Parts(events: seq<Event>): seq<Part> {
    if events == [] then []
    else
      var before := events[..|events| - 1];
      Parts(before) + PartsOf(before, events[|events| - 1])
  }

  function UsageOf(events: seq<Event>): Usage {
    if events == [] then NO_USAGE
    else
      var before := UsageOf(events[..|events| - 1]);
      match events[|events| - 1]
      case MessageStart(usage) => usage.(reasoning := 0)
      case MessageDelta(_, delta) => Supersede(before, delta)
      case _ => before
  }

  function StopOf(events: seq<Event>): string {
    if events == [] then ""
    else
      match events[|events| - 1]
      case MessageDelta(stop, _) => stop
      case _ => StopOf(events[..|events| - 1])
  }

  function MakeEnding(stop: string, usage: Usage, failure: Option<string>): Part {
    if failure.Some? then Failure(failure.value) else StreamFinish(Some(Finish(FinishReason(stop), stop, usage)))
  }

  function Ending(events: seq<Event>, failure: Option<string>): Part {
    MakeEnding(StopOf(events), UsageOf(events), failure)
  }

  /** Everything the stream has for its consumer. */
  function Full(events: seq<Event>, failure: Option<string>): seq<Part> {
    Parts(events) + [Ending(events, failure)]
  }

  /** The calls that the stops complete, in order. */
  function CompletedCalls(events: seq<Event>): seq<ToolCall> {
    if events == [] then []
    else
      var before, e := events[..|events| - 1], events[|events| - 1];
      CompletedCalls(before) +
      if e.BlockStop? && OpenBlock(Only(before, e.index)).Some?
      then [CallOf(OpenBlock(Only(before, e.index)).value)]
      else []
  }

  function AllText(events: seq<Event>): string {
    if events == [] then ""
    else
      var e := events[|events| - 1];
      AllText(events[..|events| - 1]) + if e.TextPiece? then e.text else ""
  }

  // --------------------------------------------------- the fold, as the loop runs it

  /** The variables of the loop, and what it yielded. */
  datatype Seen = Seen(parts: seq<Part>, blocks: map<int, Block>, usage: Usage, stop: string)

  function See(st: Seen, e: Event): Seen {
    match e
    case MessageStart(usage) => st.(usage := usage.(reasoning := 0))
    case BlockStart(index, toolUse, id, name) =>
      if !toolUse then st
      else st.(blocks := st.blocks[index := Block(id, name, "")], parts := st.parts + [ToolInputStart(id)])
    case TextPiece(text) => st.(parts := st.parts + [TextDelta(text)])
    case ThinkingPiece(thought) => st.(parts := st.parts + [ReasoningDelta(thought)])
    case InputPiece(index, json) =>
      if index !in st.blocks then st
      else
        var b := st.blocks[index];
        st.(blocks := st.blocks[index := b.(input := b.input + json)], parts := st.parts + [ToolInputDelta(b.id, json)])
    case BlockStop(index) =>
      if index !in st.blocks then st
      else st.(blocks := st.blocks - {index}, parts := st.parts + [ToolCallDone(Some(CallOf(st.blocks[index])))])
    case MessageDelta(stop, delta) => st.(stop := stop, usage := Supersede(st.usage, delta))
    case OtherEvent => st
  }

  function SeeAll(events: seq<Event>): Seen {
    if events == [] then Seen([], map[], NO_USAGE, "") else See(SeeAll(events[..|events| - 1]), events[|events| - 1])
  }

  lemma {:induction false} OpenNext(own: seq<Event>, e: Event)
    ensures OpenBlock(own + [e]) ==
      match e
      case BlockStart(_, _, id, name) => Some(Block(id, name, ""))
      case InputPiece(_, json) =>
        (match OpenBlock(own) case None => None case Some(b) => Some(b.(input := b.input + json)))
      case BlockStop(_) => None
      case _ => OpenBlock(own)
  {
    assert (own + [e])[..|own|] == own;
  }

  lemma {:induction false} OnlyNext(events: seq<Event>, e: Event, index: int)
    ensures Only(events + [e], index) == if Concerns(e, index) then Only(events, index) + [e] else Only(events, index)
  {
    assert (events + [e])[..|events|] == events;
    assert Only(events, index) + [] == Only(events, index);
  }

  function At(blocks: map<int, Block>, index: int): Option<Block> {
    if index in blocks then Some(blocks[index]) else None
  }

  lemma {:induction false} BlockNext(st: Seen, own: seq<Event>, e: Event, index: int)
    requires At(st.blocks, index) == OpenBlock(own)
    ensures At(See(st, e).blocks, index) == if Concerns(e, index) then OpenBlock(own + [e]) else OpenBlock(own)
  {
    OpenNext(own, e);
  }

  /** The map of open blocks holds, for each index, what the events of that index
      alone leave open. */
  lemma {:induction false} BlocksAreTheirOwn(events: seq<Event>, index: int)
    ensures At(SeeAll(events).blocks, index) == OpenBlock(Only(events, index))
  {
    if events != [] {
      var before, e := events[..|events| - 1], events[|events| - 1];
      BlocksAreTheirOwn(before, index);
      BlockNext(SeeAll(before), Only(before, index), e, index);
      OnlyNext(before, e, index);
      assert events == before + [e];
    }
  }

  /** So the loop yields the parts of the specification. */
  lemma {:induction false} LoopYieldsTheParts(events: seq<Event>)
    ensures SeeAll(events).parts == Parts(events)
    ensures SeeAll(events).usage == UsageOf(events) && SeeAll(events).stop == StopOf(events)
  {
    if events != [] {
      var before, e := events[..|events| - 1], events[|events| - 1];
      LoopYieldsTheParts(before);
      if e.InputPiece? || e.BlockStop? {
        BlocksAreTheirOwn(before, e.index);
      }
    }
  }

  lemma {:induction false} PartsPrefix(events: seq<Event>, k: nat)
    requires k <= |events|
    ensures SeeAll(events[..k]).parts <= SeeAll(events).parts
    decreases |events|
  {
    if k == |events| {
      assert events[..k] == events;
    } else {
      assert events[..|events| - 1][..k] == events[..k];
      PartsPrefix(events[..|events| - 1], k);
    }
  }

  // ------------------------------------------------------------------ the method

  class ToolBlock {
    const id: string
    const name: string
    var input: string

    constructor (id: string, name: string)
      ensures this.id == id && this.name == name && input == ""
    {
      this.id, this.name, input := id, name, "";
    }

    ghost function Value(): Block
      reads this
    {
      Block(id, name, input)
    }
  }

  /** The objects of the map have these values, and no object is there twice. */
  ghost predicate Tracks(blocks: map<int, ToolBlock>, values: map<int, Block>)
    reads blocks.Values
  {
    && (forall i :: i in blocks <==> i in values)
    && (forall i :: i in blocks ==> blocks[i].Value() == values[i])
    && (forall i, j :: i in blocks && j in blocks && i != j ==> blocks[i] != blocks[j])
  }

  /** The loop has got to a state, and the consumer took all the parts. */
  ghost predicate Streaming(blocks: map<int, ToolBlock>, c: Consumer, st: Seen)
    reads blocks.Values, c
  {
    Tracks(blocks, st.blocks) && c.got == st.parts && c.Takes()
  }

  /** The consumer broke off somewhere on the way to a state. */
  ghost predicate Broke(c: Consumer, st: Seen)
    reads c
  {
    |c.got| == c.patience + 1 && c.got <= st.parts
  }

  method OnStart(blocks: map<int, ToolBlock>, e: Event, c: Consumer, ghost st: Seen)
    returns (more: bool, blocks': map<int, ToolBlock>)
    requires Streaming(blocks, c, st) && e.BlockStart?
    modifies c
    ensures fresh(blocks'.Values - blocks.Values)
    ensures if more then Streaming(blocks', c, See(st, e)) else Broke(c, See(st, e))
  {
    if !e.toolUse {
      return true, blocks;
    }
    var b := new ToolBlock(e.id, e.name);
    blocks' := blocks[e.index := b];
    more := c.Yield(ToolInputStart(e.id));
  }

  method OnPiece(blocks: map<int, ToolBlock>, e: Event, c: Consumer, ghost st: Seen) returns (more: bool)
    requires Streaming(blocks, c, st) && e.InputPiece?
    modifies blocks.Values, c
    ensures if more then Streaming(blocks, c, See(st, e)) else Broke(c, See(st, e))
  {
    if e.index !in blocks {
      return true;
    }
    var b := blocks[e.index];
    b.input := b.input + e.json;
    more := c.Yield(ToolInputDelta(b.id, e.json));
  }

  method OnStop(blocks: map<int, ToolBlock>, e: Event, c: Consumer, ghost st: Seen)
    returns (more: bool, blocks': map<int, ToolBlock>)
    requires Streaming(blocks, c, st) && e.BlockStop?
    modifies c
    ensures blocks'.Values <= blocks.Values
    ensures if more then Streaming(blocks', c, See(st, e)) else Broke(c, See(st, e))
  {
    if e.index !in blocks {
      return true, blocks;
    }
    var b := blocks[e.index];
    blocks' := blocks - {e.index};
    more := c.Yield(ToolCallDone(Some(ToolCall(b.id, b.name, if b.input == "" then "{}" else b.input))));
  }

  method OneEvent(blocks: map<int, ToolBlock>, e: Event, usage: Usage, stop: string, c: Consumer, ghost st: Seen)
    returns (more: bool, blocks': map<int, ToolBlock>, usage': Usage, stop': string)
    requires Streaming(blocks, c, st) && usage == st.usage && stop == st.stop
    modifies blocks.Values, c
    ensures fresh(blocks'.Values - blocks.Values)
    ensures if more then Streaming(blocks', c, See(st, e)) else Broke(c, See(st, e))
    ensures usage' == See(st, e).usage && stop' == See(st, e).stop
  {
    more, blocks', usage', stop' := true, blocks, usage, stop;
    match e {
      case MessageStart(u) => usage' := u.(reasoning := 0);
      case BlockStart(_, _, _, _) => more, blocks' := OnStart(blocks, e, c, st);
      case TextPiece(text) => more := c.Yield(TextDelta(text));
      case ThinkingPiece(thought) => more := c.Yield(ReasoningDelta(thought));
      case InputPiece(_, _) => more := OnPiece(blocks, e, c, st);
      case BlockStop(_) => more, blocks' := OnStop(blocks, e, c, st);
      case MessageDelta(s, d) => stop', usage' := s, Supersede(usage, d);
      case OtherEvent =>
    }
  }

  /** The loop of Stream. */
  method EachEvent(events: seq<Event>, c: Consumer) returns (more: bool, usage: Usage, stop: string)
    requires c.got == []
    modifies c
    ensures var st := SeeAll(events);
      if more then c.got == st.parts && c.Takes() && usage == st.usage && stop == st.stop else Broke(c, st)
  {
    var blocks: map<int, ToolBlock> := map[];
    usage, stop, more := NO_USAGE, "", true;
    for i := 0 to |events|
      invariant fresh(blocks.Values) && Streaming(blocks, c, SeeAll(events[..i]))
      invariant usage == SeeAll(events[..i]).usage && stop == SeeAll(events[..i]).stop
    {
      assert events[..i + 1][..i] == events[..i];
      more, blocks, usage, stop := OneEvent(blocks, events[i], usage, stop, c, SeeAll(events[..i]));
      if !more {
        PartsPrefix(events, i + 1);
        return;
      }
    }
    assert events[..|events|] == events;
    more := true;
  }

  method Stream(events: seq<Event>, failure: Option<string>, c: Consumer)
    requires c.got == []
    modifies c
    ensures c.got == Taken(Full(events, failure), c.patience)
  {
    LoopYieldsTheParts(events);
    var more, usage, stop := EachEvent(events, c);
    if more {
      more := c.Yield(MakeEnding(stop, usage, failure));
    } else {
      assert Parts(events) <= Full(events, failure);
    }
  }

  // ------------------------------------------------------------- the whole stream

  predicate Inner(parts: seq<Part>) {
    forall p :: p in parts ==> !p.StreamFinish? && !p.Failure?
  }

  lemma {:induction false} PartsFacts(events: seq<Event>)
    ensures Texts(Parts(events)) == AllText(events) && Calls(Parts(events)) == CompletedCalls(events)
    ensures Inner(Parts(events))
  {
    if events != [] {
      var before, e := events[..|events| - 1], events[|events| - 1];
      var a, b := Parts(before), PartsOf(before, e);
      PartsFacts(before);
      OneEventFacts(before, e);
      SumFacts(a, b);
    }
  }

  lemma {:induction false} SumFacts(a: seq<Part>, b: seq<Part>)
    ensures Texts(a + b) == Texts(a) + Texts(b) && Calls(a + b) == Calls(a) + Calls(b)
    ensures Inner(a) && Inner(b) ==> Inner(a + b)
  {
    TextsAppend(a, b);
    CallsAppend(a, b);
  }

  lemma {:induction false} OneEventFacts(before: seq<Event>, e: Event)
    ensures Inner(PartsOf(before, e))
    ensures Texts(PartsOf(before, e)) == if e.TextPiece? then e.text else ""
    ensures Calls(PartsOf(before, e)) ==
      if e.BlockStop? && OpenBlock(Only(before, e.index)).Some?
      then [CallOf(OpenBlock(Only(before, e.index)).value)]
      else []
  {
    var parts := PartsOf(before, e);
    if parts != [] {
      assert parts[..0] == [];
    }
  }

  /** The calls that the stops of one index complete, in order. */
  function CallsAt(events: seq<Event>, index: int): seq<ToolCall> {
    if events == [] then []
    else
      var before, e := events[..|events| - 1], events[|events| - 1];
      CallsAt(before, index) + CompletedBy(Only(before, index), e, index)
  }

  function CompletedBy(own: seq<Event>, e: Event, index: int): seq<ToolCall> {
    if e == BlockStop(index) && OpenBlock(own).Some? then [CallOf(OpenBlock(own).value)] else []
  }

  lemma {:induction false} OnlyOnce(events: seq<Event>, index: int)
    ensures Only(Only(events, index), index) == Only(events, index)
  {
    if events != [] {
      var before, e := events[..|events| - 1], events[|events| - 1];
      OnlyOnce(before, index);
      OnlyNext(Only(before, index), e, index);
    }
  }

  /** The calls of an index come from the events of that index alone. */
  lemma {:induction false} CallsAreTheirOwn(events: seq<Event>, index: int)
    ensures CallsAt(events, index) == CallsAt(Only(events, index), index)
  {
    if events != [] {
      var before, e := events[..|events| - 1], events[|events| - 1];
      var own := Only(before, index);
      CallsAreTheirOwn(before, index);
      OnlyOnce(before, index);
      assert events == before + [e];
      OnlyNext(before, e, index);
      if Concerns(e, index) {
        assert (own + [e])[..|own|] == own;
      } else {
        assert CallsAt(before, index) + [] == CallsAt(before, index);
      }
    }
  }

  /** Each call of the stream is one of an index, and the other way around. */
  lemma {:induction false} IndexOf(events: seq<Event>, call: ToolCall) returns (index: int)
    requires call in CompletedCalls(events)
    ensures call in CallsAt(events, index)
  {
    var before, e := events[..|events| - 1], events[|events| - 1];
    if call in CompletedCalls(before) {
      index := IndexOf(before, call);
    } else {
      index := e.index;
    }
  }

  lemma {:induction false} IndexedIsCompleted(events: seq<Event>, call: ToolCall, index: int)
    requires call in CallsAt(events, index)
    ensures call in CompletedCalls(events)
  {
    var before := events[..|events| - 1];
    if call in CallsAt(before, index) {
      IndexedIsCompleted(before, call, index);
    }
  }

  /** However the events of different blocks interleave, two streams that agree on the
      events of each index complete the same calls, in the same order for each index. */
  lemma {:induction false} InterleavingDoesNotMatter(a: seq<Event>, b: seq<Event>)
    requires forall index :: Only(a, index) == Only(b, index)
    ensures forall index :: CallsAt(a, index) == CallsAt(b, index)
    ensures forall call :: call in CompletedCalls(a) <==> call in CompletedCalls(b)
  {
    forall index ensures CallsAt(a, index) == CallsAt(b, index) {
      CallsAreTheirOwn(a, index);
      CallsAreTheirOwn(b, index);
    }
    forall call ensures call in CompletedCalls(a) <==> call in CompletedCalls(b) {
      if call in CompletedCalls(a) {
        var index := IndexOf(a, call);
        IndexedIsCompleted(b, call, index);
      }
      if call in CompletedCalls(b) {
        var index := IndexOf(b, call);
        IndexedIsCompleted(a, call, index);
      }
    }
  }

  /** A start, its pieces and its stop make one call with the pieces joined, whatever
      other events stand between them. */
  lemma {:induction false} StartToStopIsOneCall(events: seq<Event>, own: seq<Event>, index: int, id: string, name: string,
                                                pieces: seq<string>)
    requires Only(events, index) == own + [BlockStart(index, true, id, name)] + InputEvents(index, pieces)
    ensures CompletedCalls(events + [BlockStop(index)]) == CompletedCalls(events) +
      [ToolCall(id, name, if JoinedInput(pieces) == "" then "{}" else JoinedInput(pieces))]
    ensures OpenBlock(Only(events + [BlockStop(index)], index)) == None
  {
    StartedAndGrown(own, index, id, name, pieces);
    assert (events + [BlockStop(index)])[..|events|] == events;
    OnlyNext(events, BlockStop(index), index);
    OpenNext(Only(events, index), BlockStop(index));
  }

  /** A stream that does not fail ends with its only finish; one that fails has none. */
  lemma {:induction false} OneEnding(events: seq<Event>, failure: Option<string>)
    ensures var full := Full(events, failure);
      forall k :: 0 <= k < |full| ==>
        (full[k].StreamFinish? <==> k == |full| - 1 && failure == None) && (full[k].Failure? <==> k == |full| - 1 && failure.Some?)
  {
    PartsFacts(events);
    forall k | 0 <= k < |Parts(events)| ensures !Parts(events)[k].StreamFinish? && !Parts(events)[k].Failure? {
      assert Parts(events)[k] in Parts(events);
    }
  }

  lemma {:induction false} FinishReasonFacts(stop: string)
    ensures FinishReason(stop).FinishRefusal? <==> stop == "refusal"
    ensures !FinishReason(stop).FinishContentFilter?
  {
  }

  /** streamCall on this stream: the completed calls in the order of their stops, and
      the whole text, unless the transport failed or the model refused. */
  lemma {:induction false} StreamCallGetsTheCalls(events: seq<Event>, failure: Option<string>, outcome: Outcome, usage: Usage)
    requires ComesTo(Full(events, failure), outcome, usage)
    ensures outcome == if failure.Some? then Failed(failure.value)
                       else if StopOf(events) == "refusal" then Refused
                       else Answer(AllText(events), CompletedCalls(events))
    ensures usage == if failure.Some? then NO_USAGE else UsageOf(events)
  {
    FinishReasonFacts(StopOf(events));
    PartsFacts(events);
    AnswerOf(Parts(events), Ending(events, failure), outcome, usage);
  }

  lemma {:induction false} AnswerOf(parts: seq<Part>, ending: Part, outcome: Outcome, usage: Usage)
    requires Inner(parts)
    requires ending.Failure? || (ending.StreamFinish? && ending.finish.Some?)
    requires ComesTo(parts + [ending], outcome, usage)
    ensures ending.Failure? ==> outcome == Failed(ending.error) && usage == NO_USAGE
    ensures ending.StreamFinish? ==>
      var f := ending.finish.value;
      && usage == f.usage
      && outcome == if f.reason.FinishRefusal? then Refused
                    else if f.reason.FinishContentFilter? then Blocked
                    else Answer(Texts(parts), Calls(parts))
  {
    var all := parts + [ending];
    assert all[..|parts|] == parts && all[..|all|] == all;
    forall j | 0 <= j < |parts| ensures !all[j].Failure? {
      assert all[j] == parts[j] && parts[j] in parts;
    }
    if ending.Failure? {
      FirstFailure(all, |parts|);
      NoFinishNoUsage(parts);
    } else {
      FirstFailure(all, |all|);
      assert Texts(all) == Texts(parts) && Calls(all) == Calls(parts);
    }
  }

  lemma {:induction false} NoFinishNoUsage(parts: seq<Part>)
    requires forall p :: p in parts ==> !p.StreamFinish?
    ensures LastUsage(parts) == NO_USAGE
  {
    if parts != [] {
      assert parts[|parts| - 1] in parts;
      NoFinishNoUsage(parts[..|parts| - 1]);
    }
  }

  // -------------------------------------------------------- what each event stands for

  /** A counter of the usage: the last one that a message_delta gives and that is not zero,
      as far back as the last message_start, whose own it is otherwise. */
  function Latest(events: seq<Event>, counter: Usage -> int): int {
    if events == [] then 0
    else
      match events[|events| - 1]
      case MessageStart(usage) => counter(usage)
      case MessageDelta(_, delta) => if counter(delta) != 0 then counter(delta) else Latest(events[..|events| - 1], counter)
      case _ => Latest(events[..|events| - 1], counter)
  }

  /** The usage of the finish is the latest of each counter, without reasoning. */
  lemma {:induction false} UsageIsTheLatest(events: seq<Event>)
    ensures var u := UsageOf(events);
      && u.input == Latest(events, (u: Usage) => u.input) && u.output == Latest(events, (u: Usage) => u.output)
      && u.cacheRead == Latest(events, (u: Usage) => u.cacheRead)
      && u.cacheWrite == Latest(events, (u: Usage) => u.cacheWrite)
      && u.reasoning == 0
  {
    if events != [] {
      UsageIsTheLatest(events[..|events| - 1]);
    }
  }

  /** The finish carries the last stop reason as it came, and says what it means. */
  lemma {:induction false} FinishTellsTheStop(before: seq<Event>, stop: string, delta: Usage, rest: seq<Event>)
    requires forall e :: e in rest ==> !e.MessageDelta?
    ensures var p := Ending(before + [MessageDelta(stop, delta)] + rest, None);
      && p.StreamFinish? && p.finish.Some? && p.finish.value.raw == stop
      && var r := p.finish.value.reason;
         && (r == FinishStop <==> stop == "end_turn") && (r == FinishLength <==> stop == "max_tokens")
         && (r == FinishToolCalls <==> stop == "tool_use") && (r == FinishRefusal <==> stop == "refusal")
         && (r == FinishOther <==> stop !in {"end_turn", "max_tokens", "tool_use", "refusal"})
  {
    LastStop(before, stop, delta, rest);
  }

  lemma {:induction false} LastStop(before: seq<Event>, stop: string, delta: Usage, rest: seq<Event>)
    requires forall e :: e in rest ==> !e.MessageDelta?
    ensures StopOf(before + [MessageDelta(stop, delta)] + rest) == stop
  {
    var all := before + [MessageDelta(stop, delta)] + rest;
    if rest == [] {
      assert all == before + [MessageDelta(stop, delta)];
    } else {
      assert all[..|all| - 1] == before + [MessageDelta(stop, delta)] + rest[..|rest| - 1];
      assert all[|all| - 1] == rest[|rest| - 1] && rest[|rest| - 1] in rest;
      LastStop(before, stop, delta, rest[..|rest| - 1]);
    }
  }

  /** A text and a thought are sent on themselves, the start of a tool_use block as its id,
      other starts and other events not at all. */
  lemma {:induction false} EventsSendOn(events: seq<Event>, index: int, id: string, name: string, text: string)
    ensures Parts(events + [TextPiece(text)]) == Parts(events) + [TextDelta(text)]
    ensures Parts(events + [ThinkingPiece(text)]) == Parts(events) + [ReasoningDelta(text)]
    ensures Parts(events + [BlockStart(index, true, id, name)]) == Parts(events) + [ToolInputStart(id)]
    ensures Parts(events + [BlockStart(index, false, id, name)]) == Parts(events) == Parts(events + [OtherEvent])
  {
    PartsNext(events, TextPiece(text));
    PartsNext(events, ThinkingPiece(text));
    PartsNext(events, BlockStart(index, true, id, name));
    PartsNext(events, BlockStart(index, false, id, name));
    PartsNext(events, OtherEvent);
  }

  /** A piece of input is sent on under the id of the block that is open for its index. */
  lemma {:induction false} PieceSendsOn(events: seq<Event>, own: seq<Event>, index: int, id: string, name: string,
                                        pieces: seq<string>, text: string)
    requires Only(events, index) == own + [BlockStart(index, true, id, name)] + InputEvents(index, pieces)
    ensures Parts(events + [InputPiece(index, text)]) == Parts(events) + [ToolInputDelta(id, text)]
  {
    StartedAndGrown(own, index, id, name, pieces);
    PartsNext(events, InputPiece(index, text));
  }

  /** Pieces and stops without an open block are passed over. */
  lemma {:induction false} StraysAreDropped(events: seq<Event>, own: seq<Event>, index: int, text: string)
    requires Only(events, index) == [] || Only(events, index) == own + [BlockStop(index)]
    ensures Parts(events + [InputPiece(index, text)]) == Parts(events) == Parts(events + [BlockStop(index)])
  {
    OpenNext(own, BlockStop(index));
    PartsNext(events, InputPiece(index, text));
    PartsNext(events, BlockStop(index));
  }

  lemma {:induction false} PartsNext(events: seq<Event>, e: Event)
    ensures Parts(events + [e]) == Parts(events) + PartsOf(events, e)
    ensures PartsOf(events, e) == [] ==> Parts(events + [e]) == Parts(events)
  {
    assert (events + [e])[..|events|] == events;
  }
}
