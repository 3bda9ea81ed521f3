/** The tool table of claude.go: tools that started and did not end yet, closed as
    cancelled when their turn or the process ends. */
module ClaudeTools {
  import opened Collections

  // ------------------------------------------------------------ the order of ids

  /** The order of sort.Strings. */
  predicate AtMost(a: string, b: string) {
    a == "" || (b != "" && (a[0] < b[0] || (a[0] == b[0] && AtMost(a[1..], b[1..]))))
  }

  lemma {:induction false} OrderIsTotal(a: string, b: string)
    ensures AtMost(a, b) || AtMost(b, a)
    ensures AtMost(a, b) && AtMost(b, a) ==> a == b
  {
    if a != "" && b != "" && a[0] == b[0] {
      OrderIsTotal(a[1..], b[1..]);
      assert a == [a[0]] + a[1..] && b == [b[0]] + b[1..];
    }
  }

  lemma {:induction false} OrderIsTransitive(a: string, b: string, c: string)
    requires AtMost(a, b) && AtMost(b, c)
    ensures AtMost(a, c)
  {
    if a != "" && a[0] == b[0] && b[0] == c[0] {
      OrderIsTransitive(a[1..], b[1..], c[1..]);
    }
  }

  ghost predicate SplitAt(a: string, b: string, i: nat) {
    i < |a| && i < |b| && a[..i] == b[..i] && a[i] < b[i]
  }

  /** A string comes before another one when it is a prefix of it, or is smaller at the
      first place where they differ. */
  lemma {:induction false} OrderIsLexical(a: string, b: string)
    ensures AtMost(a, b) <==> a <= b || exists i: nat :: SplitAt(a, b, i)
  {
    if a != "" && b != "" && a[0] == b[0] {
      OrderIsLexical(a[1..], b[1..]);
      assert a == [a[0]] + a[1..] && b == [b[0]] + b[1..];
      assert a[1..] <= b[1..] <==> a <= b;
      if i: nat :| SplitAt(a[1..], b[1..], i) {
        assert a[..i + 1] == [a[0]] + a[1..][..i] && b[..i + 1] == [b[0]] + b[1..][..i];
        assert SplitAt(a, b, i + 1);
      }
      if i: nat :| SplitAt(a, b, i) {
        assert a[1..][..i - 1] == a[..i][1..] && b[1..][..i - 1] == b[..i][1..];
        assert SplitAt(a[1..], b[1..], i - 1);
      }
    } else if a != "" && b != "" && a[0] < b[0] {
      assert SplitAt(a, b, 0);
    } else if i: nat :| SplitAt(a, b, i) {
      SplitStarts(a, b, i);
    }
  }

  lemma {:induction false} SplitStarts(a: string, b: string, i: nat)
    requires SplitAt(a, b, i)
    ensures a[0] == b[0] || a[0] < b[0]
  {
    if i > 0 {
      assert a[..i][0] == b[..i][0];
    }
  }

  ghost predicate IsLeast(m: string, ids: set<string>) {
    m in ids && forall x :: x in ids ==> AtMost(m, x)
  }

  method Least(ids: set<string>) returns (m: string)
    requires ids != {}
    ensures IsLeast(m, ids)
  {
    m :| m in ids;
    var rest := ids - {m};
    OrderIsTotal(m, m);
    while rest != {}
      invariant rest <= ids && m in ids && forall x :: x in ids - rest ==> AtMost(m, x)
    {
      var x :| x in rest;
      OrderIsTotal(m, x);
      if !AtMost(m, x) {
        forall y | y in ids - rest ensures AtMost(x, y) {
          OrderIsTransitive(x, m, y);
        }
        m := x;
      }
      OrderIsTotal(x, x);
      rest := rest - {x};
    }
  }

  /** The ids, each once, in rising order. */
  ghost predicate IsSorted(list: seq<string>, ids: set<string>) {
    && (forall x :: x in list <==> x in ids)
    && (forall i, j :: 0 <= i < j < |list| ==> AtMost(list[i], list[j]) && list[i] != list[j])
  }

  lemma {:induction false} SortedOnce(a: seq<string>, b: seq<string>, ids: set<string>)
    requires IsSorted(a, ids) && IsSorted(b, ids)
    ensures a == b
    decreases |a|
  {
    assert b != [] ==> b[0] in ids;
    if a != [] {
      assert a[0] in ids && b != [];
      var i :| 0 <= i < |b| && b[i] == a[0];
      var j :| 0 <= j < |a| && a[j] == b[0];
      OrderIsTotal(a[0], b[0]);
      assert a[0] == b[0];
      SortedRest(a, ids);
      SortedRest(b, ids);
      SortedOnce(a[1..], b[1..], ids - {a[0]});
    }
  }

  lemma {:induction false} SortedRest(a: seq<string>, ids: set<string>)
    requires IsSorted(a, ids) && a != []
    ensures IsSorted(a[1..], ids - {a[0]})
  {
    forall x ensures x in a[1..] <==> x in ids && x != a[0] {
      if x in ids && x != a[0] {
        var i :| 0 <= i < |a| && a[i] == x;
        assert a[1..][i - 1] == x;
      }
    }
  }

  method SortIds(ids: set<string>) returns (list: seq<string>)
    ensures IsSorted(list, ids)
  {
    list := [];
    var rest := ids;
    while rest != {}
      invariant rest <= ids && IsSorted(list, ids - rest)
      invariant forall x, y :: x in list && y in rest ==> AtMost(x, y)
    {
      var m := Least(rest);
      list := list + [m];
      rest := rest - {m};
    }
    assert ids - {} == ids;
  }

  // ---------------------------------------------------------------------- frames

  datatype Block = ToolUse(id: string, name: string) | ToolResult(useId: string, isError: bool) | OtherBlock

  /** The frames that touch the table: messages, a tool that starts in the stream, the
      result of a turn, and the end of the process. */
  datatype Frame =
    | AssistantFrame(blocks: seq<Block>)
    | UserFrame(blocks: seq<Block>)
    | StreamStart(id: string, name: string)
    | ResultFrame
    | Exit

  datatype Status = Started | Completed | FailedTool | CancelledTool

  datatype Event = ToolEvent(id: string, name: string, status: Status) | ResultEvent | ErrorEvent

  /** The table, whether a result was seen, and all events so far. */
  datatype State = State(tools: map<string, string>, sawResult: bool, out: seq<Event>)

  function NameOf(tools: map<string, string>, id: string): string {
    if id in tools then tools[id] else ""
  }

  function StartTool(s: State, id: string, name: string): State {
    State(if id != "" && name != "" then s.tools[id := name] else s.tools, s.sawResult,
          s.out + [ToolEvent(id, name, Started)])
  }

  function EndTool(s: State, id: string, isError: bool): State {
    State(s.tools - {id}, s.sawResult,
          s.out + [ToolEvent(id, NameOf(s.tools, id), if isError then FailedTool else Completed)])
  }

  function AssistantBlocks(s: State, blocks: seq<Block>): State {
    if blocks == [] then s
    else
      var before := AssistantBlocks(s, blocks[..|blocks| - 1]);
      match blocks[|blocks| - 1]
      case ToolUse(id, name) => StartTool(before, id, name)
      case _ => before
  }

  function UserBlocks(s: State, blocks: seq<Block>): State {
    if blocks == [] then s
    else
      var before := UserBlocks(s, blocks[..|blocks| - 1]);
      match blocks[|blocks| - 1]
      case ToolResult(id, isError) => EndTool(before, id, isError)
      case _ => before
  }

  function Cancels(ids: seq<string>): seq<Event> {
    if ids == [] then [] else Cancels(ids[..|ids| - 1]) + [ToolEvent(ids[|ids| - 1], "", CancelledTool)]
  }

  /** What a frame does. The ids of cancelled tools go out sorted. */
  ghost predicate Handles(s: State, f: Frame, s': State) {
    match f
    case AssistantFrame(blocks) => s' == AssistantBlocks(s, blocks)
    case UserFrame(blocks) => s' == UserBlocks(s, blocks)
    case StreamStart(id, name) => s' == StartTool(s, id, name)
    case ResultFrame =>
      exists ids :: IsSorted(ids, s.tools.Keys) && s' == State(map[], true, s.out + Cancels(ids) + [ResultEvent])
    case Exit =>
      exists ids :: IsSorted(ids, s.tools.Keys)
                    && s' == State(map[], s.sawResult, s.out + Cancels(ids) + if s.sawResult then [] else [ErrorEvent])
  }

  /** claudeProtocol, as far as tools go; `out` collects what the parse methods return. */
  class Protocol {
    var tools: map<string, string>
    var sawResult: bool
    var out: seq<Event>

    ghost function Now(): State
      reads this
    {
      State(tools, sawResult, out)
    }

    constructor ()
      ensures Now() == State(map[], false, [])
    {
      tools, sawResult, out := map[], false, [];
    }

    method ToolStarted(id: string, name: string)
      modifies this
      ensures Now() == StartTool(old(Now()), id, name)
    {
      if id != "" && name != "" {
        tools := tools[id := name];
      }
      out := out + [ToolEvent(id, name, Started)];
    }

    method ParseAssistant(blocks: seq<Block>)
      modifies this
      ensures Now() == AssistantBlocks(old(Now()), blocks)
    {
      for i := 0 to |blocks|
        invariant Now() == AssistantBlocks(old(Now()), blocks[..i])
      {
        assert blocks[..i + 1][..i] == blocks[..i];
        if blocks[i].ToolUse? {
          ToolStarted(blocks[i].id, blocks[i].name);
        }
      }
      assert blocks[..|blocks|] == blocks;
    }

    method ParseUser(blocks: seq<Block>)
      modifies this
      ensures Now() == UserBlocks(old(Now()), blocks)
    {
      for i := 0 to |blocks|
        invariant Now() == UserBlocks(old(Now()), blocks[..i])
      {
        assert blocks[..i + 1][..i] == blocks[..i];
        if blocks[i].ToolResult? {
          var id := blocks[i].useId;
          var name := if id in tools then tools[id] else "";
          tools := tools - {id};
          out := out + [ToolEvent(id, name, if blocks[i].isError then FailedTool else Completed)];
        }
      }
      assert blocks[..|blocks|] == blocks;
    }

    method CancelOpenTools() returns (ghost ids: seq<string>)
      modifies this`tools, this`out
      ensures IsSorted(ids, old(tools).Keys)
      ensures tools == map[] && out == old(out) + Cancels(ids)
    {
      var list := SortIds(tools.Keys);
      tools := map[];
      for i := 0 to |list|
        invariant tools == map[] && out == old(out) + Cancels(list[..i])
      {
        assert list[..i + 1][..i] == list[..i];
        out := out + [ToolEvent(list[i], "", CancelledTool)];
      }
      assert list[..|list|] == list;
      ids := list;
    }

    method Handle(f: Frame)
      modifies this
      ensures Handles(old(Now()), f, Now())
    {
      match f {
        case AssistantFrame(blocks) => ParseAssistant(blocks);
        case UserFrame(blocks) => ParseUser(blocks);
        case StreamStart(id, name) => ToolStarted(id, name);
        case ResultFrame =>
          sawResult := true;
          ghost var ids := CancelOpenTools();
          out := out + [ResultEvent];
        case Exit =>
          ghost var ids := CancelOpenTools();
          if !sawResult {
            out := out + [ErrorEvent];
          } else {
            assert out + [] == out;
          }
      }
    }
  }

  // ------------------------------------------------------- the table and the events

  predicate Starts(e: Event, id: string) {
    e.ToolEvent? && e.id == id && e.status.Started? && e.id != "" && e.name != ""
  }

  predicate Ends(e: Event, id: string) {
    e.ToolEvent? && e.id == id && !e.status.Started?
  }

  /** The name under which an id started and did not end yet, by the events alone. */
  function OpenName(out: seq<Event>, id: string): Option<string> {
    if out == [] then None
    else
      var e := out[|out| - 1];
      if Starts(e, id) then Some(e.name)
      else if Ends(e, id) then None
      else OpenName(out[..|out| - 1], id)
  }

  /** The table is what the events say. */
  ghost predicate Mirrors(s: State) {
    forall id :: OpenName(s.out, id) == if id in s.tools then Some(s.tools[id]) else None
  }

  lemma {:induction false} OpenNext(out: seq<Event>, e: Event, id: string)
    ensures OpenName(out + [e], id) == if Starts(e, id) then Some(e.name) else if Ends(e, id) then None else OpenName(out, id)
  {
    assert (out + [e])[..|out|] == out;
  }

  lemma {:induction false} StartMirrors(s: State, id: string, name: string)
    requires Mirrors(s)
    ensures Mirrors(StartTool(s, id, name))
  {
    forall other ensures OpenName(StartTool(s, id, name).out, other) ==
        if Starts(ToolEvent(id, name, Started), other) then Some(name) else OpenName(s.out, other) {
      OpenNext(s.out, ToolEvent(id, name, Started), other);
    }
  }

  lemma {:induction false} EndMirrors(s: State, id: string, isError: bool)
    requires Mirrors(s)
    ensures Mirrors(EndTool(s, id, isError))
  {
    var e := ToolEvent(id, NameOf(s.tools, id), if isError then FailedTool else Completed);
    forall other ensures OpenName(s.out + [e], other) == if other == id then None else OpenName(s.out, other) {
      OpenNext(s.out, e, other);
    }
  }

  lemma {:induction false} AssistantMirrors(s: State, blocks: seq<Block>)
    requires Mirrors(s)
    ensures Mirrors(AssistantBlocks(s, blocks))
  {
    if blocks != [] {
      var before, b := blocks[..|blocks| - 1], blocks[|blocks| - 1];
      AssistantMirrors(s, before);
      if b.ToolUse? {
        StartMirrors(AssistantBlocks(s, before), b.id, b.name);
      }
    }
  }

  lemma {:induction false} UserMirrors(s: State, blocks: seq<Block>)
    requires Mirrors(s)
    ensures Mirrors(UserBlocks(s, blocks))
  {
    if blocks != [] {
      var before, b := blocks[..|blocks| - 1], blocks[|blocks| - 1];
      UserMirrors(s, before);
      if b.ToolResult? {
        EndMirrors(UserBlocks(s, before), b.useId, b.isError);
      }
    }
  }

  lemma {:induction false} CancelsEnd(out: seq<Event>, ids: seq<string>, id: string)
    ensures OpenName(out + Cancels(ids), id) == if id in ids then None else OpenName(out, id)
  {
    if ids == [] {
      assert out + [] == out;
    } else {
      var before, last := ids[..|ids| - 1], ids[|ids| - 1];
      CancelsEnd(out, before, id);
      OpenNext(out + Cancels(before), ToolEvent(last, "", CancelledTool), id);
      assert out + Cancels(ids) == out + Cancels(before) + [ToolEvent(last, "", CancelledTool)];
      assert id in ids <==> id in before || id == last;
    }
  }

  lemma {:induction false} EverythingEnds(s: State, ids: seq<string>)
    requires Mirrors(s) && IsSorted(ids, s.tools.Keys)
    ensures forall id :: OpenName(s.out + Cancels(ids), id) == None
    ensures forall id :: OpenName(s.out + Cancels(ids) + [ResultEvent], id) == None
    ensures forall id :: OpenName(s.out + Cancels(ids) + [ErrorEvent], id) == None
  {
    forall id
      ensures OpenName(s.out + Cancels(ids), id) == None
      ensures OpenName(s.out + Cancels(ids) + [ResultEvent], id) == None
      ensures OpenName(s.out + Cancels(ids) + [ErrorEvent], id) == None
    {
      CancelsEnd(s.out, ids, id);
      assert id in ids <==> id in s.tools;
      OpenNext(s.out + Cancels(ids), ResultEvent, id);
      OpenNext(s.out + Cancels(ids), ErrorEvent, id);
    }
  }

  lemma {:induction false} HandleMirrors(s: State, f: Frame, s': State)
    requires Mirrors(s) && Handles(s, f, s')
    ensures Mirrors(s')
    ensures f.ResultFrame? || f.Exit? ==> s'.tools == map[]
  {
    match f {
      case AssistantFrame(blocks) => AssistantMirrors(s, blocks);
      case UserFrame(blocks) => UserMirrors(s, blocks);
      case StreamStart(id, name) => StartMirrors(s, id, name);
      case ResultFrame =>
        var ids :| IsSorted(ids, s.tools.Keys) && s' == State(map[], true, s.out + Cancels(ids) + [ResultEvent]);
        EverythingEnds(s, ids);
      case Exit =>
        var ids :| IsSorted(ids, s.tools.Keys)
                   && s' == State(map[], s.sawResult, s.out + Cancels(ids) + if s.sawResult then [] else [ErrorEvent]);
        EverythingEnds(s, ids);
        assert s.out + Cancels(ids) + [] == s.out + Cancels(ids);
    }
  }

  // -------------------------------------------------------------------- whole runs

  /** The states of a run: one per frame, and the first. */
  ghost predicate IsRun(frames: seq<Frame>, states: seq<State>) {
    && |states| == |frames| + 1
    && states[0] == State(map[], false, [])
    && forall i :: 0 <= i < |frames| ==> Handles(states[i], frames[i], states[i + 1])
  }

  /** After any frames the table holds exactly the named tools that started and did not
      end, under their last names; after a result or an exit it holds none. */
  lemma {:induction false} TableIsTheOpenTools(frames: seq<Frame>, states: seq<State>, k: nat)
    requires IsRun(frames, states) && k <= |frames|
    ensures Mirrors(states[k])
    ensures k > 0 && (frames[k - 1].ResultFrame? || frames[k - 1].Exit?) ==> states[k].tools == map[]
    decreases k
  {
    if k > 0 {
      TableIsTheOpenTools(frames, states, k - 1);
      HandleMirrors(states[k - 1], frames[k - 1], states[k]);
    }
  }

  ghost predicate EndsBehind(out: seq<Event>, id: string, i: nat) {
    exists j :: i < j < |out| && Ends(out[j], id)
  }

  /** An id that is not open ended after its last start. */
  lemma {:induction false} ClosedMeansEnded(out: seq<Event>, id: string, i: nat)
    requires i < |out| && Starts(out[i], id) && OpenName(out, id) == None
    ensures EndsBehind(out, id, i)
    decreases |out|
  {
    var n := |out| - 1;
    if Ends(out[n], id) {
      assert i < n;
    } else {
      assert i < n;
      ClosedMeansEnded(out[..n], id, i);
      var j :| i < j < n && Ends(out[..n][j], id);
      assert Ends(out[j], id);
    }
  }

  /** The events that a frame adds: only the last may be other than a tool event. */
  ghost predicate ToolsFirst(before: seq<Event>, after: seq<Event>) {
    && before <= after
    && forall j :: |before| <= j < |after| - 1 ==> after[j].ToolEvent?
  }

  /** Every named start is followed by an ending event, no later than the next result
      or the exit, and before the event that tells of it. */
  lemma {:induction false} EveryStartEnds(frames: seq<Frame>, states: seq<State>, k: nat, i: nat, id: string)
    requires IsRun(frames, states) && k < |frames| && (frames[k].ResultFrame? || frames[k].Exit?)
    requires i < |states[k].out| && Starts(states[k].out[i], id)
    ensures EndsBehind(states[k + 1].out, id, i)
    ensures ToolsFirst(states[k].out, states[k + 1].out)
  {
    TableIsTheOpenTools(frames, states, k + 1);
    assert Handles(states[k], frames[k], states[k + 1]);
    TerminalFrame(states[k], frames[k], states[k + 1]);
    ClosedMeansEnded(states[k + 1].out, id, i);
  }

  lemma {:induction false} TerminalFrame(s: State, f: Frame, s': State)
    requires Handles(s, f, s') && (f.ResultFrame? || f.Exit?)
    ensures ToolsFirst(s.out, s'.out)
  {
    var ids, last :| |last| <= 1 && s'.out == s.out + Cancels(ids) + last;
    CancelsAreTools(ids);
  }

  lemma {:induction false} CancelsAreTools(ids: seq<string>)
    ensures |Cancels(ids)| == |ids|
    ensures forall i :: 0 <= i < |ids| ==> Cancels(ids)[i] == ToolEvent(ids[i], "", CancelledTool)
  {
    if ids != [] {
      CancelsAreTools(ids[..|ids| - 1]);
    }
  }

  /** A result cancels each open id exactly once, in order, right before itself. */
  lemma {:induction false} ResultCancelsTheOpen(s: State, s': State)
    requires Mirrors(s) && Handles(s, ResultFrame, s')
    ensures exists ids :: IsSorted(ids, s.tools.Keys)
                          && s'.out == s.out + seq(|ids|, k requires 0 <= k < |ids| => ToolEvent(ids[k], "", CancelledTool)) + [ResultEvent]
    ensures forall id :: id in s.tools <==> OpenName(s.out, id).Some?
  {
    var ids :| IsSorted(ids, s.tools.Keys) && s' == State(map[], true, s.out + Cancels(ids) + [ResultEvent]);
    CancelsAreTools(ids);
    assert Cancels(ids) == seq(|ids|, k requires 0 <= k < |ids| => ToolEvent(ids[k], "", CancelledTool));
  }

  /** A turn that ends right behind a start cancels that id exactly when the start has
      an id and a name, or the id was open before. So a start without a name is left
      without an end by its turn, unless a named start of its id is open or its own
      tool result came. */
  lemma {:induction false} TurnEndsStartIff(s: State, id: string, name: string, s': State)
    requires Handles(StartTool(s, id, name), ResultFrame, s')
    ensures ToolEvent(id, "", CancelledTool) in s'.out[|s.out| + 1..] <==> (id != "" && name != "") || id in s.tools
  {
    var started := StartTool(s, id, name);
    var ids :| IsSorted(ids, started.tools.Keys) && s' == State(map[], true, started.out + Cancels(ids) + [ResultEvent]);
    CancelsAreTools(ids);
    assert s'.out[|s.out| + 1..] == Cancels(ids) + [ResultEvent];
    CancelledIff(ids, id);
  }

  lemma {:induction false} CancelledIff(ids: seq<string>, id: string)
    ensures ToolEvent(id, "", CancelledTool) in Cancels(ids) <==> id in ids
  {
    if ids != [] {
      CancelledIff(ids[..|ids| - 1], id);
    }
  }

  /** The same over a run: between the start and the result any frames may come, as
      long as none ends or starts the id or ends the turn. */
  ghost predicate LeavesAlone(f: Frame, id: string) {
    match f
    case AssistantFrame(blocks) => forall b :: b in blocks ==> !b.ToolUse? || b.id != id
    case UserFrame(blocks) => forall b :: b in blocks ==> !b.ToolResult? || b.useId != id
    case StreamStart(other, _) => other != id
    case ResultFrame => false
    case Exit => false
  }

  lemma {:induction false} AssistantLeaves(s: State, blocks: seq<Block>, id: string)
    requires forall b :: b in blocks ==> !b.ToolUse? || b.id != id
    ensures id in AssistantBlocks(s, blocks).tools <==> id in s.tools
  {
    if blocks != [] {
      assert blocks[|blocks| - 1] in blocks;
      AssistantLeaves(s, blocks[..|blocks| - 1], id);
    }
  }

  lemma {:induction false} UserLeaves(s: State, blocks: seq<Block>, id: string)
    requires forall b :: b in blocks ==> !b.ToolResult? || b.useId != id
    ensures id in UserBlocks(s, blocks).tools <==> id in s.tools
  {
    if blocks != [] {
      assert blocks[|blocks| - 1] in blocks;
      UserLeaves(s, blocks[..|blocks| - 1], id);
    }
  }

  lemma {:induction false} LeftAlone(states: seq<State>, frames: seq<Frame>, i: nat, j: nat, id: string)
    requires IsRun(frames, states) && i <= j <= |frames|
    requires forall k :: i <= k < j ==> LeavesAlone(frames[k], id)
    ensures id in states[j].tools <==> id in states[i].tools
    decreases j - i
  {
    if i < j {
      LeftAlone(states, frames, i, j - 1, id);
      assert Handles(states[j - 1], frames[j - 1], states[j]);
      match frames[j - 1] {
        case AssistantFrame(blocks) => AssistantLeaves(states[j - 1], blocks, id);
        case UserFrame(blocks) => UserLeaves(states[j - 1], blocks, id);
        case StreamStart(_, _) =>
      }
    }
  }

  /** A start in the stream whose id is left alone until the result of its turn is
      cancelled by it exactly when it has an id and a name, or its id was open. */
  lemma {:induction false} ResultEndsStartIff(states: seq<State>, frames: seq<Frame>, i: nat, j: nat)
    requires IsRun(frames, states) && i < j < |frames| && frames[i].StreamStart? && frames[j].ResultFrame?
    requires forall k :: i < k < j ==> LeavesAlone(frames[k], frames[i].id)
    ensures var id := frames[i].id;
      ToolEvent(id, "", CancelledTool) in states[j + 1].out[|states[j].out|..] <==>
        (id != "" && frames[i].name != "") || id in states[i].tools
  {
    var id := frames[i].id;
    LeftAlone(states, frames, i + 1, j, id);
    assert Handles(states[i], frames[i], states[i + 1]) && Handles(states[j], frames[j], states[j + 1]);
    var s, s' := states[j], states[j + 1];
    var ids :| IsSorted(ids, s.tools.Keys) && s' == State(map[], true, s.out + Cancels(ids) + [ResultEvent]);
    assert s'.out[|s.out|..] == Cancels(ids) + [ResultEvent];
    CancelledIff(ids, id);
  }

  // ------------------------------------------------------------ what each frame says

  function ToolUses(blocks: seq<Block>): seq<Block> {
    if blocks == [] then []
    else
      var b := blocks[|blocks| - 1];
      ToolUses(blocks[..|blocks| - 1]) + if b.ToolUse? then [b] else []
  }

  function ToolResults(blocks: seq<Block>): (results: seq<Block>)
    ensures forall j :: 0 <= j < |results| ==> results[j].ToolResult?
  {
    if blocks == [] then []
    else
      var b := blocks[|blocks| - 1];
      ToolResults(blocks[..|blocks| - 1]) + if b.ToolResult? then [b] else []
  }

  function Named(name: Option<string>): string {
    if name.Some? then name.value else ""
  }

  lemma {:induction false} UsesSay(s: State, blocks: seq<Block>)
    ensures var uses := ToolUses(blocks);
      && (forall j :: 0 <= j < |uses| ==> uses[j].ToolUse?)
      && AssistantBlocks(s, blocks).out ==
         s.out + seq(|uses|, j requires 0 <= j < |uses| => ToolEvent(uses[j].id, uses[j].name, Started))
  {
    if blocks != [] {
      var before, b := blocks[..|blocks| - 1], blocks[|blocks| - 1];
      UsesSay(s, before);
    }
  }

  /** The ends that a user message brings, each under the name that is open by then. */
  ghost predicate AreEnds(out: seq<Event>, out': seq<Event>, results: seq<Block>) {
    && |out'| == |out| + |results| && out <= out'
    && forall j :: 0 <= j < |results| ==>
         results[j].ToolResult? &&
         out'[|out| + j] == ToolEvent(results[j].useId, Named(OpenName(out'[..|out| + j], results[j].useId)),
                                      if results[j].isError then FailedTool else Completed)
  }

  lemma {:induction false} ResultsSay(s: State, blocks: seq<Block>)
    requires Mirrors(s)
    ensures AreEnds(s.out, UserBlocks(s, blocks).out, ToolResults(blocks))
  {
    if blocks != [] {
      var before, b := blocks[..|blocks| - 1], blocks[|blocks| - 1];
      ResultsSay(s, before);
      UserMirrors(s, before);
      var s1 := UserBlocks(s, before);
      if b.ToolResult? {
        var out' := EndTool(s1, b.useId, b.isError).out;
        assert out'[..|s1.out|] == s1.out;
        assert OpenName(s1.out, b.useId) == if b.useId in s1.tools then Some(s1.tools[b.useId]) else None;
        forall n: nat | n <= |s1.out| ensures out'[..n] == s1.out[..n] {}
      }
    }
  }

  /** In every run each frame says what it holds: a message of the assistant one start per
      tool use, in order, under its id and name; a message of the user one end per tool
      result, completed or failed as it says, under the name that its id has open; and
      a start in the stream one start. */
  lemma {:induction false} FramesSay(frames: seq<Frame>, states: seq<State>, k: nat)
    requires IsRun(frames, states) && k < |frames|
    ensures match frames[k]
      case AssistantFrame(blocks) =>
        var uses := ToolUses(blocks);
        && (forall j :: 0 <= j < |uses| ==> uses[j].ToolUse?)
        && states[k + 1].out ==
           states[k].out + seq(|uses|, j requires 0 <= j < |uses| => ToolEvent(uses[j].id, uses[j].name, Started))
      case UserFrame(blocks) => AreEnds(states[k].out, states[k + 1].out, ToolResults(blocks))
      case StreamStart(id, name) => states[k + 1].out == states[k].out + [ToolEvent(id, name, Started)]
      case _ => true
  {
    TableIsTheOpenTools(frames, states, k);
    assert Handles(states[k], frames[k], states[k + 1]);
    match frames[k]
    case AssistantFrame(blocks) => UsesSay(states[k], blocks);
    case UserFrame(blocks) => ResultsSay(states[k], blocks);
    case _ =>
  }

  lemma {:induction false} BlocksKeepResult(s: State, blocks: seq<Block>)
    ensures AssistantBlocks(s, blocks).sawResult == s.sawResult && UserBlocks(s, blocks).sawResult == s.sawResult
  {
    if blocks != [] {
      BlocksKeepResult(s, blocks[..|blocks| - 1]);
    }
  }

  lemma {:induction false} SawResultIff(frames: seq<Frame>, states: seq<State>, k: nat)
    requires IsRun(frames, states) && k <= |frames|
    ensures states[k].sawResult <==> exists i :: 0 <= i < k && frames[i].ResultFrame?
  {
    if k > 0 {
      var f := frames[k - 1];
      SawResultIff(frames, states, k - 1);
      assert Handles(states[k - 1], f, states[k]);
      match f
      case AssistantFrame(blocks) => BlocksKeepResult(states[k - 1], blocks);
      case UserFrame(blocks) => BlocksKeepResult(states[k - 1], blocks);
      case _ =>
    }
  }

  /** An exit is an error exactly when no result came before it; and then the error is the
      last event. */
  lemma {:induction false} ExitIsErrorIff(frames: seq<Frame>, states: seq<State>, k: nat)
    requires IsRun(frames, states) && k < |frames| && frames[k].Exit?
    ensures var added := states[k + 1].out[|states[k].out|..];
      (ErrorEvent in added <==> forall i :: 0 <= i < k ==> !frames[i].ResultFrame?)
      && (ErrorEvent in added ==> added[|added| - 1] == ErrorEvent) && ResultEvent !in added
  {
    SawResultIff(frames, states, k);
    assert Handles(states[k], frames[k], states[k + 1]);
    ExitAdds(states[k], states[k + 1]);
  }

  lemma {:induction false} ExitAdds(s: State, s': State)
    requires Handles(s, Exit, s')
    ensures var added := s'.out[|s.out|..];
      (ErrorEvent in added <==> !s.sawResult)
      && (ErrorEvent in added ==> added[|added| - 1] == ErrorEvent) && ResultEvent !in added
  {
    var ids :| IsSorted(ids, s.tools.Keys)
               && s' == State(map[], s.sawResult, s.out + Cancels(ids) + if s.sawResult then [] else [ErrorEvent]);
    CancelsAreTools(ids);
    assert s'.out[|s.out|..] == Cancels(ids) + if s.sawResult then [] else [ErrorEvent];
    forall e | e in Cancels(ids) ensures e.ToolEvent? {
      var i :| 0 <= i < |Cancels(ids)| && Cancels(ids)[i] == e;
    }
  }
}
