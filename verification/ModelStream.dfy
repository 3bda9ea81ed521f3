/** The stream of one model call (native/types.go), its consumer, and the fold of
    native/session.go over it. */
module ModelStream {
  import opened Collections

  datatype Reason = FinishStop | FinishLength | FinishToolCalls | FinishContentFilter | FinishRefusal
                  | FinishError | FinishOther

  datatype Usage = Usage(input: int, output: int, cacheRead: int, cacheWrite: int, reasoning: int)

  const NO_USAGE := Usage(0, 0, 0, 0, 0)

  datatype Finish = Finish(reason: Reason, raw: string, usage: Usage)

  datatype ToolCall = ToolCall(id: string, name: string, input: string)

  /** A stream part, or the error that a stream yields. */
  datatype Part =
    | TextDelta(text: string)
    | ReasoningDelta(thought: string)
    | ToolInputStart(id: string)
    | ToolInputDelta(callId: string, fragment: string)
    | ToolCallDone(call: Option<ToolCall>)
    | StreamFinish(finish: Option<Finish>)
    | Failure(error: string)

  // ----------------------------------------------------------------- consumer

  /** The loop body that a stream yields to. It breaks after `patience` parts more
      than none: the part with that index is the last it takes. */
  class Consumer {
    var got: seq<Part>
    const patience: nat

    constructor (patience: nat)
      ensures got == [] && this.patience == patience
    {
      got := [];
      this.patience := patience;
    }

    predicate Takes()
      reads this
    {
      |got| <= patience
    }

    method Yield(part: Part) returns (more: bool)
      modifies this
      ensures got == old(got) + [part] && more == Takes()
    {
      got := got + [part];
      more := |got| <= patience;
    }
  }

  /** What a consumer gets of all the parts that a stream has for it. */
  function Taken(parts: seq<Part>, patience: nat): seq<Part> {
    if |parts| <= patience then parts else parts[..patience + 1]
  }

  // --------------------------------------------------------------------- fold

  function Texts(parts: seq<Part>): string {
    if parts == [] then ""
    else
      var p := parts[|parts| - 1];
      Texts(parts[..|parts| - 1]) + if p.TextDelta? then p.text else ""
  }

  function Calls(parts: seq<Part>): seq<ToolCall> {
    if parts == [] then []
    else
      var p := parts[|parts| - 1];
      Calls(parts[..|parts| - 1]) + if p.ToolCallDone? && p.call.Some? then [p.call.value] else []
  }

  /** The last finish part counts, with or without a body. */
  function LastFinish(parts: seq<Part>): Option<Finish> {
    if parts == [] then None
    else
      var p := parts[|parts| - 1];
      if p.StreamFinish? then p.finish else LastFinish(parts[..|parts| - 1])
  }

  /** The usage of the last finish part with a body. */
  function LastUsage(parts: seq<Part>): Usage {
    if parts == [] then NO_USAGE
    else
      var p := parts[|parts| - 1];
      if p.StreamFinish? && p.finish.Some? then p.finish.value.usage else LastUsage(parts[..|parts| - 1])
  }

  lemma {:induction false} TextsAppend(a: seq<Part>, b: seq<Part>)
    ensures Texts(a + b) == Texts(a) + Texts(b)
  {
    if b == [] {
      assert a + b == a;
    } else {
      assert (a + b)[..|a + b| - 1] == a + b[..|b| - 1];
      TextsAppend(a, b[..|b| - 1]);
    }
  }

  lemma {:induction false} CallsAppend(a: seq<Part>, b: seq<Part>)
    ensures Calls(a + b) == Calls(a) + Calls(b)
  {
    if b == [] {
      assert a + b == a;
    } else {
      assert (a + b)[..|a + b| - 1] == a + b[..|b| - 1];
      CallsAppend(a, b[..|b| - 1]);
    }
  }

  predicate Clean(parts: seq<Part>) {
    forall p :: p in parts ==> !p.Failure?
  }

  datatype Outcome =
    | Answer(text: string, calls: seq<ToolCall>)
    | Failed(error: string)
    | NoFinish
    | Refused
    | Blocked

  /** How many parts come before the first failure. */
  function BeforeFailure(parts: seq<Part>): (k: nat)
    ensures k <= |parts| && (k < |parts| ==> parts[k].Failure?)
  {
    if parts == [] || parts[0].Failure? then 0 else 1 + BeforeFailure(parts[1..])
  }

  lemma {:induction false} FirstFailure(parts: seq<Part>, k: nat)
    requires k <= |parts| && (k < |parts| ==> parts[k].Failure?)
    requires forall j :: 0 <= j < k ==> !parts[j].Failure?
    ensures BeforeFailure(parts) == k
  {
    if k > 0 {
      FirstFailure(parts[1..], k - 1);
    }
  }

  /** What a model call comes to, when its stream has these parts. A failure ends the
      loop, so what is behind it does not count. */
  ghost predicate ComesTo(parts: seq<Part>, outcome: Outcome, usage: Usage) {
    var k := BeforeFailure(parts);
    && usage == LastUsage(parts[..k])
    && outcome == if k < |parts| then Failed(parts[k].error)
                  else match LastFinish(parts)
                    case None => NoFinish
                    case Some(f) =>
                      if f.reason.FinishRefusal? then Refused
                      else if f.reason.FinishContentFilter? then Blocked
                      else Answer(Texts(parts), Calls(parts))
  }

  /** The events of a model call: assistant text as it streams, and once more whole. */
  datatype CallEvent = Assistant(text: string, delta: bool) | Thought(text: string)

  function Streamed(parts: seq<Part>): seq<CallEvent> {
    if parts == [] then []
    else
      var p := parts[|parts| - 1];
      Streamed(parts[..|parts| - 1]) +
      if p.TextDelta? then [Assistant(p.text, true)]
      else if p.ReasoningDelta? then [Thought(p.thought)]
      else []
  }

  function DeltaTexts(events: seq<CallEvent>): string {
    if events == [] then ""
    else
      var e := events[|events| - 1];
      DeltaTexts(events[..|events| - 1]) + if e.Assistant? && e.delta then e.text else ""
  }

  /** The text that streams out is the text that is kept. */
  lemma {:induction false} StreamedTextIsTheText(parts: seq<Part>)
    ensures DeltaTexts(Streamed(parts)) == Texts(parts)
  {
    if parts != [] {
      var n := |parts| - 1;
      StreamedTextIsTheText(parts[..n]);
      var before := Streamed(parts[..n]);
      var events := Streamed(parts);
      if events != before {
        assert events[..|before|] == before;
      }
    }
  }

  /** What each part of a stream adds: a text delta to the text and to the events, a
      reasoning delta to the events alone, a finished call to the calls, and a finish
      part its usage; it is the last finish that tells how the call ended. Starts and
      pieces of input add nothing. */
  lemma {:induction false} EachPartCounts(parts: seq<Part>, text: string, id: string, call: ToolCall, finish: Finish)
    ensures Texts(parts + [TextDelta(text)]) == Texts(parts) + text
    ensures Streamed(parts + [TextDelta(text)]) == Streamed(parts) + [Assistant(text, true)]
    ensures Streamed(parts + [ReasoningDelta(text)]) == Streamed(parts) + [Thought(text)]
    ensures Calls(parts + [ToolCallDone(Some(call))]) == Calls(parts) + [call]
    ensures LastFinish(parts + [StreamFinish(Some(finish))]) == Some(finish)
    ensures LastFinish(parts + [StreamFinish(None)]) == None && LastUsage(parts + [StreamFinish(None)]) == LastUsage(parts)
    ensures LastUsage(parts + [StreamFinish(Some(finish))]) == finish.usage
    ensures forall p :: p in {ReasoningDelta(text), ToolInputStart(id), ToolInputDelta(id, text), ToolCallDone(None)} ==>
      Texts(parts + [p]) == Texts(parts) && Calls(parts + [p]) == Calls(parts)
      && LastFinish(parts + [p]) == LastFinish(parts) && LastUsage(parts + [p]) == LastUsage(parts)
    ensures forall p :: p in {ToolInputStart(id), ToolInputDelta(id, text), ToolCallDone(Some(call)), StreamFinish(Some(finish))} ==>
      Streamed(parts + [p]) == Streamed(parts)
  {
    forall p ensures (parts + [p])[..|parts|] == parts {}
  }

  method StreamCall(parts: seq<Part>) returns (outcome: Outcome, usage: Usage, events: seq<CallEvent>)
    ensures ComesTo(parts, outcome, usage)
    ensures outcome.Answer? ==>
      events == Streamed(parts) + if outcome.text != "" then [Assistant(outcome.text, false)] else []
    ensures !outcome.Answer? ==> events == Streamed(parts[..BeforeFailure(parts)])
  {
    var text, calls, finish := "", [], None;
    usage, events := NO_USAGE, [];
    for i := 0 to |parts|
      invariant forall j :: 0 <= j < i ==> !parts[j].Failure?
      invariant text == Texts(parts[..i]) && calls == Calls(parts[..i])
      invariant finish == LastFinish(parts[..i]) && usage == LastUsage(parts[..i])
      invariant events == Streamed(parts[..i])
    {
      var part := parts[i];
      assert parts[..i + 1][..i] == parts[..i];
      match part {
        case Failure(error) =>
          FirstFailure(parts, i);
          return Failed(error), usage, events;
        case TextDelta(delta) =>
          text := text + delta;
          events := events + [Assistant(delta, true)];
        case ReasoningDelta(thought) =>
          events := events + [Thought(thought)];
        case ToolInputStart(_) =>
        case ToolInputDelta(_, _) =>
        case ToolCallDone(call) =>
          if call.Some? {
            calls := calls + [call.value];
          }
        case StreamFinish(f) =>
          finish := f;
          if f.Some? {
            usage := f.value.usage;
          }
      }
    }
    assert parts[..|parts|] == parts;
    FirstFailure(parts, |parts|);
    if finish == None {
      return NoFinish, usage, events;
    }
    if finish.value.reason.FinishRefusal? {
      return Refused, usage, events;
    }
    if finish.value.reason.FinishContentFilter? {
      return Blocked, usage, events;
    }
    outcome := Answer(text, calls);
    if text != "" {
      events := events + [Assistant(text, false)];
    }
  }
}
