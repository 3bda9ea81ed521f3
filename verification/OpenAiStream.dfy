/** native/provider/openai/stream.go: the chunk stream of a model call, whose tool
    calls come in shards that carry the index of their call. */
module OpenAiStream {
  import opened Collections
  import opened ModelStream

  datatype Shard = Shard(index: int, id: string, name: string, args: string)

  datatype Choice = Choice(content: string, shards: seq<Shard>, finishReason: string)

  datatype Chunk = Chunk(choices: seq<Choice>, usage: Option<Usage>)

  /** mapFinish. */
  function MapFinish(raw: string): Reason {
    if raw == "stop" then FinishStop
    else if raw == "length" then FinishLength
    else if raw == "tool_calls" || raw == "function_call" then FinishToolCalls
    else if raw == "content_filter" then FinishContentFilter
    else FinishOther
  }

  // -------------------------------------------------------------- the call table

  /** What is known of the call with an index. */
  datatype Entry = Entry(index: int, id: string, name: string, args: string)

  predicate Has(table: seq<Entry>, index: int) {
    exists k :: 0 <= k < |table| && table[k].index == index
  }

  function Find(table: seq<Entry>, index: int): (k: nat)
    requires Has(table, index)
    ensures k < |table| && table[k].index == index
  {
    if table[|table| - 1].index == index then |table| - 1 else Find(table[..|table| - 1], index)
  }

  function Touch(table: seq<Entry>, index: int): (r: seq<Entry>)
    ensures Has(r, index)
  {
    if Has(table, index) then table
    else
      var r := table + [Entry(index, "", "", "")];
      assert r[|table|].index == index;
      r
  }

  function Merge(e: Entry, s: Shard): Entry {
    Entry(e.index, if s.id != "" then s.id else e.id, if s.name != "" then s.name else e.name, e.args + s.args)
  }

  function AddShard(table: seq<Entry>, s: Shard): seq<Entry> {
    var touched := Touch(table, s.index);
    var k := Find(touched, s.index);
    touched[k := Merge(touched[k], s)]
  }

  /** The table after some shards. */
  function Table(shards: seq<Shard>): seq<Entry> {
    if shards == [] then [] else AddShard(Table(shards[..|shards| - 1]), shards[|shards| - 1])
  }

  // ------------------------------------------------- what the table should hold

  /** The shards of one call, in order. */
  function Only(shards: seq<Shard>, index: int): seq<Shard> {
    if shards == [] then []
    else
      var s := shards[|shards| - 1];
      Only(shards[..|shards| - 1], index) + if s.index == index then [s] else []
  }

  function JoinedArgs(shards: seq<Shard>): string {
    if shards == [] then "" else JoinedArgs(shards[..|shards| - 1]) + shards[|shards| - 1].args
  }

  function LastId(shards: seq<Shard>): string {
    if shards == [] then ""
    else if shards[|shards| - 1].id != "" then shards[|shards| - 1].id
    else LastId(shards[..|shards| - 1])
  }

  function LastName(shards: seq<Shard>): string {
    if shards == [] then ""
    else if shards[|shards| - 1].name != "" then shards[|shards| - 1].name
    else LastName(shards[..|shards| - 1])
  }

  /** An entry says what the shards of its call say: the last id and name that are
      not empty, and all the arguments. */
  ghost predicate Says(e: Entry, own: seq<Shard>) {
    own != [] && e.id == LastId(own) && e.name == LastName(own) && e.args == JoinedArgs(own)
  }

  /** Where the first shard of a call is. */
  function FirstAt(shards: seq<Shard>, index: int): nat {
    if shards == [] then 0
    else if shards[0].index == index then 0
    else 1 + FirstAt(shards[1..], index)
  }

  /** Each entry says what the shards of its call say, and each call has an entry. */
  ghost predicate Complete(table: seq<Entry>, shards: seq<Shard>) {
    && (forall k :: 0 <= k < |table| ==> Says(table[k], Only(shards, table[k].index)))
    && (forall i :: Only(shards, i) != [] ==> Has(table, i))
  }

  /** The entries stand in the order in which their calls first arrived. */
  ghost predicate Arrived(table: seq<Entry>, shards: seq<Shard>) {
    forall j, k :: 0 <= j < k < |table| ==> FirstAt(shards, table[j].index) < FirstAt(shards, table[k].index)
  }

  lemma {:induction false} OnlyNext(shards: seq<Shard>, s: Shard)
    ensures forall i :: Only(shards + [s], i) == Only(shards, i) + if s.index == i then [s] else []
  {
    assert (shards + [s])[..|shards|] == shards;
  }

  lemma {:induction false} SaysNext(e: Entry, own: seq<Shard>, s: Shard)
    requires e.index == s.index && (Says(e, own) || (own == [] && e == Entry(s.index, "", "", "")))
    ensures Says(Merge(e, s), own + [s])
  {
    assert (own + [s])[..|own|] == own;
  }

  lemma {:induction false} FirstAtNext(shards: seq<Shard>, s: Shard, index: int)
    ensures FirstAt(shards, index) <= |shards|
    ensures FirstAt(shards, index) < |shards| <==> Only(shards, index) != []
    ensures Only(shards, index) != [] ==> FirstAt(shards + [s], index) == FirstAt(shards, index)
    ensures Only(shards, index) == [] && s.index == index ==> FirstAt(shards + [s], index) == |shards|
  {
    if shards != [] {
      assert (shards + [s])[1..] == shards[1..] + [s];
      FirstAtNext(shards[1..], s, index);
      OnlyCons(shards, index);
    }
  }

  lemma {:induction false} OnlyCons(shards: seq<Shard>, index: int)
    requires shards != []
    ensures Only(shards, index) == (if shards[0].index == index then [shards[0]] else []) + Only(shards[1..], index)
  {
    if |shards| > 1 {
      var before := shards[..|shards| - 1];
      assert before[1..] == shards[1..][..|shards| - 2];
      OnlyCons(before, index);
    }
  }

  lemma {:induction false} CompleteNext(table: seq<Entry>, shards: seq<Shard>, s: Shard)
    requires Complete(table, shards) && Arrived(table, shards)
    ensures Complete(AddShard(table, s), shards + [s])
  {
    OnlyNext(shards, s);
    var touched := Touch(table, s.index);
    var k := Find(touched, s.index);
    var after := AddShard(table, s);
    TouchedOnce(table, shards, s.index);
    forall j | 0 <= j < |after| ensures Says(after[j], Only(shards + [s], after[j].index)) {
      if j == k {
        SaysNext(touched[k], Only(shards, s.index), s);
      } else {
        var own := Only(shards, table[j].index);
        assert after[j] == table[j] && Says(table[j], own) && own + [] == own;
      }
    }
    HasNext(table, shards, s);
  }

  lemma {:induction false} HasNext(table: seq<Entry>, shards: seq<Shard>, s: Shard)
    requires Complete(table, shards) && Arrived(table, shards)
    ensures forall i :: Only(shards + [s], i) != [] ==> Has(AddShard(table, s), i)
  {
    OnlyNext(shards, s);
    var k := Find(Touch(table, s.index), s.index);
    var after := AddShard(table, s);
    TouchedOnce(table, shards, s.index);
    forall i | Only(shards + [s], i) != [] ensures Has(after, i) {
      if i == s.index {
        assert after[k].index == i;
      } else {
        var j :| 0 <= j < |table| && table[j].index == i;
        assert after[j].index == i;
      }
    }
  }

  /** The entry of an index is the only one, and new only where no shard had the index. */
  lemma {:induction false} TouchedOnce(table: seq<Entry>, shards: seq<Shard>, index: int)
    requires Complete(table, shards) && Arrived(table, shards)
    ensures var touched := Touch(table, index); var k := Find(touched, index);
      && (forall j :: 0 <= j < |touched| && j != k ==> j < |table| && touched[j] == table[j] && table[j].index != index)
      && (if Has(table, index) then touched == table
          else k == |table| && touched[k] == Entry(index, "", "", "") && Only(shards, index) == [])
  {
  }

  lemma {:induction false} ArrivedNext(table: seq<Entry>, shards: seq<Shard>, s: Shard)
    requires Complete(table, shards) && Arrived(table, shards)
    ensures Arrived(AddShard(table, s), shards + [s])
  {
    var after := AddShard(table, s);
    TouchedOnce(table, shards, s.index);
    FirstAtNext(shards, s, s.index);
    forall j | 0 <= j < |table|
      ensures after[j].index == table[j].index
      ensures FirstAt(shards + [s], table[j].index) == FirstAt(shards, table[j].index) < |shards|
    {
      FirstAtNext(shards, s, table[j].index);
    }
  }

  /** However the shards interleave, the table has one entry per call, in first-arrival
      order, with what the shards of the call say. */
  lemma {:induction false} TableIsRight(shards: seq<Shard>)
    ensures Complete(Table(shards), shards) && Arrived(Table(shards), shards)
  {
    if shards != [] {
      var before, s := shards[..|shards| - 1], shards[|shards| - 1];
      assert shards == before + [s];
      TableIsRight(before);
      CompleteNext(Table(before), before, s);
      ArrivedNext(Table(before), before, s);
    }
  }

  /** The table is the only one that is right: complete, and in arrival order. */
  lemma {:induction false} OneRightTable(a: seq<Entry>, b: seq<Entry>, shards: seq<Shard>)
    requires Complete(a, shards) && Arrived(a, shards) && Complete(b, shards) && Arrived(b, shards)
    ensures a == b
  {
    forall e | e in a || e in b ensures e in a && e in b {
      if e in a {
        SameEntries(a, b, shards, e);
      } else {
        SameEntries(b, a, shards, e);
      }
    }
    SortedOnce(a, b, shards);
  }

  lemma {:induction false} SameEntries(a: seq<Entry>, b: seq<Entry>, shards: seq<Shard>, e: Entry)
    requires Complete(a, shards) && Complete(b, shards) && e in a
    ensures e in b
  {
    var k :| 0 <= k < |b| && b[k].index == e.index;
  }

  /** Two lists with the same items that rise strictly by the same key are equal. */
  lemma {:induction false} SortedOnce(a: seq<Entry>, b: seq<Entry>, shards: seq<Shard>)
    requires Arrived(a, shards) && Arrived(b, shards) && forall e :: e in a <==> e in b
    ensures a == b
    decreases |a|
  {
    assert b != [] ==> b[0] in b;
    if a != [] {
      assert a[0] in b && b != [];
      assert b[0] in a;
      assert a[0] == b[0];
      forall e ensures e in a[1..] <==> e in b[1..] {
        assert e in a[1..] <==> e in a && e != a[0];
        assert e in b[1..] <==> e in b && e != b[0];
      }
      SortedOnce(a[1..], b[1..], shards);
    }
  }

  lemma {:induction false} EntryOf(shards: seq<Shard>, index: int)
    requires Only(shards, index) != []
    ensures exists e :: e in Table(shards) && e.index == index && Says(e, Only(shards, index))
  {
    TableIsRight(shards);
    var k :| 0 <= k < |Table(shards)| && Table(shards)[k].index == index;
    assert Table(shards)[k] in Table(shards);
  }

  /** Interleaving the shards of different calls in another way gives the same calls. */
  lemma {:induction false} InterleavingDoesNotMatter(a: seq<Shard>, b: seq<Shard>)
    requires forall i :: Only(a, i) == Only(b, i)
    ensures forall e :: e in Table(a) <==> e in Table(b)
  {
    TableIsRight(a);
    TableIsRight(b);
    forall e | e in Table(a) || e in Table(b) ensures e in Table(a) && e in Table(b) {
      if e in Table(a) {
        EntryOf(b, e.index);
      } else {
        EntryOf(a, e.index);
      }
    }
  }

  // ------------------------------------------------------------- the fold, as a spec

  /** What the loops have made of the chunks so far: the deltas they yielded, all shards
      in order of arrival, the last finish reason, and the last usage. */
  datatype Seen = Seen(deltas: seq<Part>, shards: seq<Shard>, raw: string, usage: Usage)

  function SeeText(st: Seen, text: string): Seen {
    if text == "" then st else st.(deltas := st.deltas + [TextDelta(text)])
  }

  /** A piece of the arguments goes out under the id that the call has by then. */
  function SeeShard(st: Seen, s: Shard): Seen {
    var shards := st.shards + [s];
    if s.args == "" then st.(shards := shards)
    else st.(shards := shards, deltas := st.deltas + [ToolInputDelta(LastId(Only(shards, s.index)), s.args)])
  }

  function SeeShards(st: Seen, shards: seq<Shard>): Seen {
    if shards == [] then st else SeeShard(SeeShards(st, shards[..|shards| - 1]), shards[|shards| - 1])
  }

  function SeeReason(st: Seen, reason: string): Seen {
    if reason == "" then st else st.(raw := reason)
  }

  function SeeChoice(st: Seen, choice: Choice): Seen {
    SeeReason(SeeShards(SeeText(st, choice.content), choice.shards), choice.finishReason)
  }

  function SeeChoices(st: Seen, choices: seq<Choice>): Seen {
    if choices == [] then st else SeeChoice(SeeChoices(st, choices[..|choices| - 1]), choices[|choices| - 1])
  }

  function SeeChunk(st: Seen, chunk: Chunk): Seen {
    var st := SeeChoices(st, chunk.choices);
    if chunk.usage == None then st else st.(usage := chunk.usage.value)
  }

  function See(chunks: seq<Chunk>): Seen {
    if chunks == [] then Seen([], [], "", NO_USAGE) else SeeChunk(See(chunks[..|chunks| - 1]), chunks[|chunks| - 1])
  }

  /** callState.done. */
  function Done(e: Entry): Part {
    ToolCallDone(Some(ToolCall(e.id, e.name, e.args)))
  }

  function Dones(table: seq<Entry>): seq<Part> {
    if table == [] then [] else Dones(table[..|table| - 1]) + [Done(table[|table| - 1])]
  }

  function MakeFinish(raw: string, usage: Usage, failure: Option<string>): Part {
    StreamFinish(Some(Finish(if failure.Some? then FinishError else MapFinish(raw), raw, usage)))
  }

  function FailurePart(failure: Option<string>): seq<Part> {
    if failure.Some? then [Failure(failure.value)] else []
  }

  /** Everything the stream has for its consumer. */
  function Full(st: Seen, failure: Option<string>): seq<Part> {
    st.deltas + Dones(Table(st.shards)) + [MakeFinish(st.raw, st.usage, failure)] + FailurePart(failure)
  }

  lemma {:induction false} DonesPrefix(table: seq<Entry>, k: nat)
    requires k <= |table|
    ensures Dones(table[..k]) <= Dones(table)
    decreases |table|
  {
    if k == |table| {
      assert table[..k] == table;
    } else {
      assert table[..|table| - 1][..k] == table[..k];
      DonesPrefix(table[..|table| - 1], k);
    }
  }

  // ------------------------------------------------- what was seen of the chunks

  /** All shards of the chunks, in order. */
  function ShardsOf(choices: seq<Choice>): seq<Shard> {
    if choices == [] then [] else ShardsOf(choices[..|choices| - 1]) + choices[|choices| - 1].shards
  }

  function AllShards(chunks: seq<Chunk>): seq<Shard> {
    if chunks == [] then [] else AllShards(chunks[..|chunks| - 1]) + ShardsOf(chunks[|chunks| - 1].choices)
  }

  function TextOf(choices: seq<Choice>): string {
    if choices == [] then "" else TextOf(choices[..|choices| - 1]) + choices[|choices| - 1].content
  }

  function AllText(chunks: seq<Chunk>): string {
    if chunks == [] then "" else AllText(chunks[..|chunks| - 1]) + TextOf(chunks[|chunks| - 1].choices)
  }

  /** Deltas are text and pieces of arguments only. */
  predicate Plain(parts: seq<Part>) {
    forall p :: p in parts ==> p.TextDelta? || p.ToolInputDelta?
  }

  /** How far one state has come from another. */
  ghost predicate Grew(st: Seen, st': Seen, shards: seq<Shard>, text: string) {
    && st.deltas <= st'.deltas
    && (Plain(st.deltas) ==> Plain(st'.deltas))
    && Texts(st'.deltas) == Texts(st.deltas) + text
    && Calls(st'.deltas) == Calls(st.deltas)
    && st'.shards == st.shards + shards
  }

  lemma {:induction false} OnePart(parts: seq<Part>, p: Part)
    requires p.TextDelta? || p.ToolInputDelta?
    ensures Texts(parts + [p]) == Texts(parts) + if p.TextDelta? then p.text else ""
    ensures Calls(parts + [p]) == Calls(parts)
  {
    assert (parts + [p])[..|parts|] == parts;
  }

  lemma {:induction false} GrewByText(st: Seen, text: string)
    ensures Grew(st, SeeText(st, text), [], text)
  {
    OnePart(st.deltas, TextDelta(text));
  }

  lemma {:induction false} GrewByShard(st: Seen, s: Shard)
    ensures Grew(st, SeeShard(st, s), [s], "")
  {
    OnePart(st.deltas, ToolInputDelta(LastId(Only(st.shards + [s], s.index)), s.args));
  }

  lemma {:induction false} GrewTwice(a: Seen, b: Seen, c: Seen, shards: seq<Shard>, text: string,
                                     shards': seq<Shard>, text': string)
    requires Grew(a, b, shards, text) && Grew(b, c, shards', text')
    ensures Grew(a, c, shards + shards', text + text')
  {
    SumAssociates(a.shards, shards, shards');
    SumAssociates(Texts(a.deltas), text, text');
  }

  lemma {:induction false} GrewByShards(st: Seen, shards: seq<Shard>)
    ensures Grew(st, SeeShards(st, shards), shards, "")
  {
    if shards == [] {
      assert st.shards + [] == st.shards && Texts(st.deltas) + "" == Texts(st.deltas);
    } else {
      var before, s := shards[..|shards| - 1], shards[|shards| - 1];
      GrewByShards(st, before);
      GrewByShard(SeeShards(st, before), s);
      GrewTwice(st, SeeShards(st, before), SeeShards(st, shards), before, "", [s], "");
      assert before + [s] == shards && "" + "" == "";
    }
  }

  lemma {:induction false} GrewByChoice(st: Seen, choice: Choice)
    ensures Grew(st, SeeChoice(st, choice), choice.shards, choice.content)
  {
    var st1 := SeeText(st, choice.content);
    var st2 := SeeShards(st1, choice.shards);
    GrewByText(st, choice.content);
    GrewByShards(st1, choice.shards);
    GrewTwice(st, st1, st2, [], choice.content, choice.shards, "");
    assert [] + choice.shards == choice.shards && choice.content + "" == choice.content;
  }

  lemma {:induction false} GrewByChoices(st: Seen, choices: seq<Choice>)
    ensures Grew(st, SeeChoices(st, choices), ShardsOf(choices), TextOf(choices))
  {
    if choices == [] {
      assert st.shards + [] == st.shards && Texts(st.deltas) + "" == Texts(st.deltas);
    } else {
      var before, c := choices[..|choices| - 1], choices[|choices| - 1];
      GrewByChoices(st, before);
      GrewByChoice(SeeChoices(st, before), c);
      GrewTwice(st, SeeChoices(st, before), SeeChoices(st, choices), ShardsOf(before), TextOf(before), c.shards, c.content);
    }
  }

  lemma {:induction false} GrewByChunk(st: Seen, chunk: Chunk)
    ensures Grew(st, SeeChunk(st, chunk), ShardsOf(chunk.choices), TextOf(chunk.choices))
  {
    GrewByChoices(st, chunk.choices);
  }

  /** The loops see every shard and every piece of text, in order. */
  lemma {:induction false} EverythingIsSeen(chunks: seq<Chunk>)
    ensures See(chunks).shards == AllShards(chunks)
    ensures Texts(See(chunks).deltas) == AllText(chunks) && Calls(See(chunks).deltas) == []
    ensures Plain(See(chunks).deltas)
  {
    if chunks != [] {
      var before, c := chunks[..|chunks| - 1], chunks[|chunks| - 1];
      EverythingIsSeen(before);
      GrewByChunk(See(before), c);
    }
  }

  lemma {:induction false} SeePrefix(chunks: seq<Chunk>, k: nat)
    requires k <= |chunks|
    ensures See(chunks[..k]).deltas <= See(chunks).deltas
    decreases |chunks|
  {
    if k == |chunks| {
      assert chunks[..k] == chunks;
    } else {
      var before := chunks[..|chunks| - 1];
      assert before[..k] == chunks[..k];
      SeePrefix(before, k);
      GrewByChunk(See(before), chunks[|chunks| - 1]);
    }
  }

  // ------------------------------------------------------------------- objects

  class CallState {
    var id: string
    var name: string
    var args: string

    constructor ()
      ensures id == "" && name == "" && args == ""
    {
      id, name, args := "", "", "";
    }
  }

  class CallTable {
    var byIndex: map<int, CallState>
    var order: seq<CallState>
    ghost var indexes: seq<int>
    ghost var states: set<CallState>

    constructor ()
      ensures Valid() && states == {} && Contents() == []
    {
      byIndex, order, indexes, states := map[], [], [], {};
    }

    ghost predicate Valid()
      reads this
    {
      && |indexes| == |order|
      && Distinct(order) && Distinct(indexes)
      && (forall i :: i in byIndex <==> i in indexes)
      && (forall k :: 0 <= k < |order| ==> order[k] in states && byIndex[indexes[k]] == order[k])
    }

    ghost function EntryAt(k: nat): Entry
      requires Valid() && k < |order|
      reads this, states
    {
      Entry(indexes[k], order[k].id, order[k].name, order[k].args)
    }

    ghost function Contents(): (table: seq<Entry>)
      requires Valid()
      reads this, states
    {
      seq(|order|, k requires 0 <= k < |order| && Valid() reads this, states => EntryAt(k))
    }

    /** The accumulator of an index, made on first use. */
    method Shard(index: int) returns (call: CallState)
      requires Valid()
      modifies this
      ensures Valid() && Contents() == Touch(old(Contents()), index)
      ensures call in states && call == order[Find(Contents(), index)]
      ensures old(states) <= states && fresh(states - old(states))
    {
      ghost var before := Contents();
      if index in byIndex {
        call := byIndex[index];
        ghost var k :| 0 <= k < |indexes| && indexes[k] == index;
        assert before[k].index == index;
      } else {
        forall k | 0 <= k < |indexes| ensures before[k].index != index {
          assert indexes[k] in indexes;
        }
        call := new CallState();
        byIndex := byIndex[index := call];
        order := order + [call];
        indexes := indexes + [index];
        states := states + {call};
        assert Contents() == before + [Entry(index, "", "", "")];
      }
    }

    /** Merges a shard into its accumulator. */
    method Add(s: Shard) returns (id: string)
      requires Valid()
      modifies this, states
      ensures Valid() && Contents() == AddShard(old(Contents()), s)
      ensures id == Contents()[Find(Touch(old(Contents()), s.index), s.index)].id
      ensures fresh(states - old(states))
    {
      var call := this.Shard(s.index);
      ghost var touched := Contents();
      ghost var k := Find(touched, s.index);
      if s.id != "" {
        call.id := s.id;
      }
      if s.name != "" {
        call.name := s.name;
      }
      call.args := call.args + s.args;
      assert EntryAt(k) == Merge(touched[k], s);
      assert Contents() == touched[k := Merge(touched[k], s)];
      id := call.id;
    }
  }

  // -------------------------------------------------------------------- stream

  /** The loops have got to a state, and the consumer took all the parts. */
  ghost predicate Streaming(calls: CallTable, c: Consumer, st: Seen)
    reads calls, calls.states, c
  {
    && calls.Valid() && calls.Contents() == Table(st.shards)
    && c.got == st.deltas && c.Takes()
  }

  /** The consumer broke off somewhere on the way to a state. */
  ghost predicate Broke(c: Consumer, st: Seen)
    reads c
  {
    |c.got| == c.patience + 1 && c.got <= st.deltas
  }

  lemma {:induction false} BrokeBefore(c: Consumer, st: Seen, st': Seen)
    requires Broke(c, st) && st.deltas <= st'.deltas
    ensures Broke(c, st')
  {
  }

  lemma {:induction false} TableNext(shards: seq<Shard>, s: Shard)
    ensures Table(shards + [s]) == AddShard(Table(shards), s)
    ensures Table(shards + [s])[Find(Touch(Table(shards), s.index), s.index)].id == LastId(Only(shards + [s], s.index))
  {
    assert (shards + [s])[..|shards|] == shards;
    TableIsRight(shards + [s]);
  }

  method OneShard(calls: CallTable, shard: Shard, c: Consumer, ghost st: Seen) returns (more: bool)
    requires Streaming(calls, c, st)
    modifies calls, calls.states, c
    ensures fresh(calls.states - old(calls.states))
    ensures if more then Streaming(calls, c, SeeShard(st, shard)) else Broke(c, SeeShard(st, shard))
  {
    TableNext(st.shards, shard);
    var id := calls.Add(shard);
    more := true;
    if shard.args != "" {
      more := c.Yield(ToolInputDelta(id, shard.args));
    }
  }

  method EachShard(calls: CallTable, shards: seq<Shard>, c: Consumer, ghost st: Seen) returns (more: bool)
    requires Streaming(calls, c, st)
    modifies calls, calls.states, c
    ensures fresh(calls.states - old(calls.states))
    ensures if more then Streaming(calls, c, SeeShards(st, shards)) else Broke(c, SeeShards(st, shards))
  {
    more := true;
    for i := 0 to |shards|
      invariant Streaming(calls, c, SeeShards(st, shards[..i]))
      invariant fresh(calls.states - old(calls.states))
    {
      assert shards[..i + 1][..i] == shards[..i];
      more := OneShard(calls, shards[i], c, SeeShards(st, shards[..i]));
      if !more {
        SeeShardsPrefix(st, shards, i + 1);
        BrokeBefore(c, SeeShards(st, shards[..i + 1]), SeeShards(st, shards));
        return;
      }
    }
    assert shards[..|shards|] == shards;
  }

  lemma {:induction false} SeeShardsPrefix(st: Seen, shards: seq<Shard>, k: nat)
    requires k <= |shards|
    ensures SeeShards(st, shards[..k]).deltas <= SeeShards(st, shards).deltas
    decreases |shards|
  {
    if k == |shards| {
      assert shards[..k] == shards;
    } else {
      assert shards[..|shards| - 1][..k] == shards[..k];
      SeeShardsPrefix(st, shards[..|shards| - 1], k);
    }
  }

  method OneChoice(calls: CallTable, choice: Choice, raw: string, c: Consumer, ghost st: Seen)
    returns (more: bool, raw': string)
    requires Streaming(calls, c, st) && raw == st.raw
    modifies calls, calls.states, c
    ensures fresh(calls.states - old(calls.states))
    ensures if more then Streaming(calls, c, SeeChoice(st, choice)) && raw' == SeeChoice(st, choice).raw
            else Broke(c, SeeChoice(st, choice))
  {
    more, raw' := true, raw;
    ghost var st1 := SeeText(st, choice.content);
    ghost var st2 := SeeShards(st1, choice.shards);
    GrewByShards(st1, choice.shards);
    if choice.content != "" {
      more := c.Yield(TextDelta(choice.content));
      if !more {
        BrokeBefore(c, st1, st2);
        return;
      }
    }
    more := EachShard(calls, choice.shards, c, st1);
    OnlyDeltasGrow(st1, choice.shards);
    if more && choice.finishReason != "" {
      raw' := choice.finishReason;
    }
  }

  lemma {:induction false} OnlyDeltasGrow(st: Seen, shards: seq<Shard>)
    ensures SeeShards(st, shards).raw == st.raw && SeeShards(st, shards).usage == st.usage
  {
    if shards != [] {
      OnlyDeltasGrow(st, shards[..|shards| - 1]);
    }
  }

  method EachChoice(calls: CallTable, choices: seq<Choice>, raw: string, c: Consumer, ghost st: Seen)
    returns (more: bool, raw': string)
    requires Streaming(calls, c, st) && raw == st.raw
    modifies calls, calls.states, c
    ensures fresh(calls.states - old(calls.states))
    ensures if more then Streaming(calls, c, SeeChoices(st, choices)) && raw' == SeeChoices(st, choices).raw
            else Broke(c, SeeChoices(st, choices))
  {
    more, raw' := true, raw;
    for i := 0 to |choices|
      invariant Streaming(calls, c, SeeChoices(st, choices[..i])) && raw' == SeeChoices(st, choices[..i]).raw
      invariant fresh(calls.states - old(calls.states))
    {
      assert choices[..i + 1][..i] == choices[..i];
      more, raw' := OneChoice(calls, choices[i], raw', c, SeeChoices(st, choices[..i]));
      if !more {
        SeeChoicesPrefix(st, choices, i + 1);
        BrokeBefore(c, SeeChoices(st, choices[..i + 1]), SeeChoices(st, choices));
        return;
      }
    }
    assert choices[..|choices|] == choices;
  }

  lemma {:induction false} SeeChoicesPrefix(st: Seen, choices: seq<Choice>, k: nat)
    requires k <= |choices|
    ensures SeeChoices(st, choices[..k]).deltas <= SeeChoices(st, choices).deltas
    decreases |choices|
  {
    if k == |choices| {
      assert choices[..k] == choices;
    } else {
      var before := choices[..|choices| - 1];
      assert before[..k] == choices[..k];
      SeeChoicesPrefix(st, before, k);
      GrewByChoice(SeeChoices(st, before), choices[|choices| - 1]);
    }
  }

  lemma {:induction false} ChoicesKeepUsage(st: Seen, choices: seq<Choice>)
    ensures SeeChoices(st, choices).usage == st.usage
  {
    if choices != [] {
      var before, c := choices[..|choices| - 1], choices[|choices| - 1];
      ChoicesKeepUsage(st, before);
      OnlyDeltasGrow(SeeText(SeeChoices(st, before), c.content), c.shards);
    }
  }

  method OneChunk(calls: CallTable, chunk: Chunk, raw: string, usage: Usage, c: Consumer, ghost st: Seen)
    returns (more: bool, raw': string, usage': Usage)
    requires Streaming(calls, c, st) && raw == st.raw && usage == st.usage
    modifies calls, calls.states, c
    ensures fresh(calls.states - old(calls.states))
    ensures if more then Streaming(calls, c, SeeChunk(st, chunk)) && raw' == SeeChunk(st, chunk).raw
                         && usage' == SeeChunk(st, chunk).usage
            else Broke(c, SeeChunk(st, chunk))
  {
    usage' := usage;
    more, raw' := EachChoice(calls, chunk.choices, raw, c, st);
    ChoicesKeepUsage(st, chunk.choices);
    if chunk.usage.Some? {
      usage' := chunk.usage.value;
    }
  }

  lemma {:induction false} DonesNext(before: seq<Part>, table: seq<Entry>, i: nat)
    requires i < |table|
    ensures before + Dones(table[..i]) + [Done(table[i])] == before + Dones(table[..i + 1])
  {
    assert table[..i + 1][..i] == table[..i];
    SumAssociates(before, Dones(table[..i]), [Done(table[i])]);
  }

  /** The finished calls, one by one. */
  method YieldCalls(calls: CallTable, c: Consumer, ghost before: seq<Part>) returns (more: bool)
    requires calls.Valid() && c.got == before && c.Takes()
    modifies c
    ensures more == c.Takes() && c.got == Taken(before + Dones(calls.Contents()), c.patience)
  {
    ghost var table := calls.Contents();
    more := true;
    for i := 0 to |calls.order|
      invariant c.got == before + Dones(table[..i]) && c.Takes()
    {
      var call := calls.order[i];
      assert table[i] == calls.EntryAt(i);
      DonesNext(before, table, i);
      more := c.Yield(ToolCallDone(Some(ToolCall(call.id, call.name, call.args))));
      if !more {
        DonesPrefix(table, i + 1);
        return;
      }
    }
    assert table[..|table|] == table;
  }

  method Stream(chunks: seq<Chunk>, failure: Option<string>, c: Consumer)
    requires c.got == []
    modifies c
    ensures c.got == Taken(Full(See(chunks), failure), c.patience)
  {
    var calls := new CallTable();
    var rawReason, usage, more := "", NO_USAGE, true;
    for i := 0 to |chunks|
      invariant fresh(calls) && fresh(calls.states)
      invariant Streaming(calls, c, See(chunks[..i]))
      invariant rawReason == See(chunks[..i]).raw && usage == See(chunks[..i]).usage
    {
      assert chunks[..i + 1][..i] == chunks[..i];
      more, rawReason, usage := OneChunk(calls, chunks[i], rawReason, usage, c, See(chunks[..i]));
      if !more {
        SeePrefix(chunks, i + 1);
        BrokeBefore(c, See(chunks[..i + 1]), See(chunks));
        BrokeForGood(c, See(chunks), failure);
        return;
      }
    }
    assert chunks[..|chunks|] == chunks;
    FinishStream(calls, rawReason, usage, failure, c, See(chunks));
  }

  lemma {:induction false} BrokeForGood(c: Consumer, st: Seen, failure: Option<string>)
    requires Broke(c, st)
    ensures c.got == Taken(Full(st, failure), c.patience)
  {
    assert st.deltas <= Full(st, failure);
  }

  /** The part of Stream behind the loop. */
  method FinishStream(calls: CallTable, rawReason: string, usage: Usage, failure: Option<string>, c: Consumer,
                      ghost st: Seen)
    requires Streaming(calls, c, st) && rawReason == st.raw && usage == st.usage
    modifies c
    ensures c.got == Taken(Full(st, failure), c.patience)
  {
    EndStream(calls, MakeFinish(rawReason, usage, failure), failure, c, st.deltas);
  }

  method EndStream(calls: CallTable, finish: Part, failure: Option<string>, c: Consumer, ghost deltas: seq<Part>)
    requires calls.Valid() && c.got == deltas && c.Takes()
    modifies c
    ensures c.got == Taken(deltas + Dones(calls.Contents()) + [finish] + FailurePart(failure), c.patience)
  {
    var more := YieldCalls(calls, c, deltas);
    if more {
      more := c.Yield(finish);
      if more && failure.Some? {
        more := c.Yield(Failure(failure.value));
      }
    }
  }

  // ------------------------------------------------------------- the whole stream

  /** The finished calls of a table, in its order. */
  function ToolCalls(table: seq<Entry>): seq<ToolCall> {
    if table == [] then []
    else
      var e := table[|table| - 1];
      ToolCalls(table[..|table| - 1]) + [ToolCall(e.id, e.name, e.args)]
  }

  lemma {:induction false} DonesAreTheCalls(table: seq<Entry>)
    ensures Calls(Dones(table)) == ToolCalls(table) && Texts(Dones(table)) == ""
    ensures forall p :: p in Dones(table) ==> p.ToolCallDone?
  {
    if table != [] {
      var d := Dones(table);
      DonesAreTheCalls(table[..|table| - 1]);
      assert d[..|d| - 1] == Dones(table[..|table| - 1]);
    }
  }

  /** A finish part comes exactly once, behind all calls; only a failure follows it. */
  lemma {:induction false} OneFinish(chunks: seq<Chunk>, failure: Option<string>)
    ensures var full := Full(See(chunks), failure); var at := |See(chunks).deltas| + |Dones(Table(AllShards(chunks)))|;
      && |full| == at + (if failure.Some? then 2 else 1)
      && (forall k :: 0 <= k < |full| ==> (full[k].StreamFinish? <==> k == at))
      && (forall k :: 0 <= k < |full| ==> (full[k].Failure? <==> k == at + 1))
      && (forall k :: 0 <= k < |full| && full[k].ToolCallDone? ==> k < at)
  {
    var st := See(chunks);
    EverythingIsSeen(chunks);
    DonesAreTheCalls(Table(st.shards));
    FinishPlace(st.deltas, Dones(Table(st.shards)), MakeFinish(st.raw, st.usage, failure), FailurePart(failure));
  }

  lemma {:induction false} FinishPlace(a: seq<Part>, b: seq<Part>, finish: Part, last: seq<Part>)
    requires Plain(a) && forall p :: p in b ==> p.ToolCallDone?
    requires finish.StreamFinish? && |last| <= 1 && forall p :: p in last ==> p.Failure?
    ensures var full := a + b + [finish] + last; var at := |a| + |b|;
      && (forall k :: 0 <= k < |full| ==> (full[k].StreamFinish? <==> k == at))
      && (forall k :: 0 <= k < |full| ==> (full[k].Failure? <==> k == at + 1))
      && (forall k :: 0 <= k < |full| && full[k].ToolCallDone? ==> k < at)
  {
    var full, at := a + b + [finish] + last, |a| + |b|;
    forall k | 0 <= k < |full|
      ensures full[k].StreamFinish? <==> k == at
      ensures full[k].Failure? <==> k == at + 1
      ensures full[k].ToolCallDone? ==> k < at
    {
      if k < |a| {
        assert full[k] == a[k] && a[k] in a;
      } else if k < at {
        assert full[k] == b[k - |a|] && b[k - |a|] in b;
      } else if k > at {
        assert full[k] == last[k - at - 1] && last[k - at - 1] in last;
      }
    }
  }

  lemma {:induction false} MapFinishFacts(raw: string)
    ensures MapFinish(raw).FinishContentFilter? <==> raw == "content_filter"
    ensures !MapFinish(raw).FinishRefusal? && !MapFinish(raw).FinishError?
  {
  }

  /** streamCall on this stream: the calls in first-arrival order, and the whole text,
      unless the transport failed or the last reason is the content filter. */
  lemma {:induction false} StreamCallGetsTheCalls(chunks: seq<Chunk>, failure: Option<string>, outcome: Outcome, usage: Usage)
    requires ComesTo(Full(See(chunks), failure), outcome, usage)
    ensures usage == See(chunks).usage
    ensures outcome == if failure.Some? then Failed(failure.value)
                       else if See(chunks).raw == "content_filter" then Blocked
                       else Answer(AllText(chunks), ToolCalls(Table(AllShards(chunks))))
  {
    var st := See(chunks);
    MapFinishFacts(st.raw);
    AnswerOf(chunks, MakeFinish(st.raw, st.usage, failure).finish.value, failure, outcome, usage);
  }

  lemma {:induction false} AnswerOf(chunks: seq<Chunk>, finish: Finish, failure: Option<string>, outcome: Outcome, usage: Usage)
    requires ComesTo(See(chunks).deltas + Dones(Table(See(chunks).shards)) + [StreamFinish(Some(finish))] + FailurePart(failure),
                     outcome, usage)
    ensures usage == finish.usage
    ensures failure.Some? ==> outcome == Failed(failure.value)
    ensures failure == None ==>
      outcome == if finish.reason.FinishRefusal? then Refused else if finish.reason.FinishContentFilter? then Blocked
                 else Answer(AllText(chunks), ToolCalls(Table(AllShards(chunks))))
  {
    HeadFacts(chunks);
    var head := See(chunks).deltas + Dones(Table(See(chunks).shards));
    if failure == None {
      assert head + [StreamFinish(Some(finish))] + FailurePart(failure) == head + [StreamFinish(Some(finish))];
      ComesToFinish(head, finish, outcome, usage);
    } else {
      ComesToFailure(head, finish, failure.value, outcome, usage);
    }
  }

  lemma {:induction false} HeadFacts(chunks: seq<Chunk>)
    ensures var head := See(chunks).deltas + Dones(Table(See(chunks).shards));
      && Clean(head) && Texts(head) == AllText(chunks)
      && Calls(head) == ToolCalls(Table(AllShards(chunks)))
  {
    var a, b := See(chunks).deltas, Dones(Table(See(chunks).shards));
    EverythingIsSeen(chunks);
    DonesAreTheCalls(Table(See(chunks).shards));
    CallsAppend(a, b);
    TextsAppend(a, b);
    assert AllText(chunks) + "" == AllText(chunks) && [] + Calls(b) == Calls(b);
  }

  lemma {:induction false} ComesToFinish(head: seq<Part>, finish: Finish, outcome: Outcome, usage: Usage)
    requires Clean(head) && ComesTo(head + [StreamFinish(Some(finish))], outcome, usage)
    ensures usage == finish.usage
    ensures outcome == if finish.reason.FinishRefusal? then Refused
                       else if finish.reason.FinishContentFilter? then Blocked
                       else Answer(Texts(head), Calls(head))
  {
    var all := head + [StreamFinish(Some(finish))];
    assert all[..|head|] == head && all[..|all|] == all;
    FirstFailure(all, |all|);
    assert Texts(all) == Texts(head) && Calls(all) == Calls(head);
  }

  lemma {:induction false} ComesToFailure(head: seq<Part>, finish: Finish, error: string, outcome: Outcome, usage: Usage)
    requires Clean(head) && ComesTo(head + [StreamFinish(Some(finish))] + [Failure(error)], outcome, usage)
    ensures usage == finish.usage && outcome == Failed(error)
  {
    var upto := head + [StreamFinish(Some(finish))];
    var all := upto + [Failure(error)];
    FirstFailure(all, |upto|);
    assert all[..|upto|] == upto && upto[..|head|] == head;
  }

  // -------------------------------------------------- reasons, usage, argument deltas

  function AllChoices(chunks: seq<Chunk>): seq<Choice> {
    if chunks == [] then [] else AllChoices(chunks[..|chunks| - 1]) + chunks[|chunks| - 1].choices
  }

  function LastReason(choices: seq<Choice>): string {
    if choices == [] then ""
    else
      var reason := choices[|choices| - 1].finishReason;
      if reason != "" then reason else LastReason(choices[..|choices| - 1])
  }

  lemma {:induction false} LastReasonIs(choices: seq<Choice>)
    ensures if forall k :: 0 <= k < |choices| ==> choices[k].finishReason == "" then LastReason(choices) == ""
            else exists k :: 0 <= k < |choices| && choices[k].finishReason == LastReason(choices) != ""
                             && forall j :: k < j < |choices| ==> choices[j].finishReason == ""
  {
    if choices != [] {
      var before := choices[..|choices| - 1];
      LastReasonIs(before);
      if choices[|choices| - 1].finishReason == "" && exists k :: 0 <= k < |before| && before[k].finishReason != "" {
        var k :| 0 <= k < |before| && before[k].finishReason == LastReason(before) != ""
                 && forall j :: k < j < |before| ==> before[j].finishReason == "";
        assert choices[k].finishReason == LastReason(choices);
      }
    }
  }

  lemma {:induction false} LastReasonAppend(a: seq<Choice>, b: seq<Choice>)
    ensures LastReason(a + b) == if LastReason(b) != "" then LastReason(b) else LastReason(a)
  {
    if b == [] {
      assert a + b == a;
    } else {
      assert (a + b)[..|a + b| - 1] == a + b[..|b| - 1];
      LastReasonAppend(a, b[..|b| - 1]);
    }
  }

  lemma {:induction false} ReasonOfChoices(st: Seen, choices: seq<Choice>)
    ensures SeeChoices(st, choices).raw == if LastReason(choices) != "" then LastReason(choices) else st.raw
  {
    if choices != [] {
      var before, c := choices[..|choices| - 1], choices[|choices| - 1];
      ReasonOfChoices(st, before);
      OnlyDeltasGrow(SeeText(SeeChoices(st, before), c.content), c.shards);
    }
  }

  lemma {:induction false} ReasonIsTheLast(chunks: seq<Chunk>)
    ensures See(chunks).raw == LastReason(AllChoices(chunks))
  {
    if chunks != [] {
      var before, c := chunks[..|chunks| - 1], chunks[|chunks| - 1];
      ReasonIsTheLast(before);
      ReasonOfChoices(See(before), c.choices);
      LastReasonAppend(AllChoices(before), c.choices);
    }
  }

  /** The usage of the last chunk that has one. */
  ghost predicate IsLastUsage(chunks: seq<Chunk>, usage: Usage) {
    || ((forall k :: 0 <= k < |chunks| ==> chunks[k].usage == None) && usage == NO_USAGE)
    || (exists k :: 0 <= k < |chunks| && chunks[k].usage == Some(usage) && NoneBehind(chunks, k))
  }

  ghost predicate NoneBehind(chunks: seq<Chunk>, k: int) {
    forall j :: k < j < |chunks| && 0 <= j ==> chunks[j].usage == None
  }

  lemma {:induction false} LastUsageNext(before: seq<Chunk>, c: Chunk, usage: Usage)
    requires IsLastUsage(before, usage)
    ensures IsLastUsage(before + [c], if c.usage == None then usage else c.usage.value)
  {
    var chunks := before + [c];
    if c.usage.Some? {
      assert chunks[|before|].usage == c.usage && NoneBehind(chunks, |before|);
    } else if k :| 0 <= k < |before| && before[k].usage == Some(usage) && NoneBehind(before, k) {
      assert chunks[k].usage == Some(usage) && NoneBehind(chunks, k);
    }
  }

  lemma {:induction false} UsageIsTheLast(chunks: seq<Chunk>)
    ensures IsLastUsage(chunks, See(chunks).usage)
  {
    if chunks != [] {
      var before, c := chunks[..|chunks| - 1], chunks[|chunks| - 1];
      UsageIsTheLast(before);
      ChoicesKeepUsage(See(before), c.choices);
      LastUsageNext(before, c, See(before).usage);
      assert chunks == before + [c];
    }
  }

  /** The finish part: the last finish reason that is not empty, as it came and in the terms
      of the session; the last usage that is present; an error where the transport
      failed. */
  lemma {:induction false} FinishTellsTheReason(chunks: seq<Chunk>, failure: Option<string>)
    ensures var p := MakeFinish(See(chunks).raw, See(chunks).usage, failure);
      && p.StreamFinish? && p.finish.Some?
      && var raw, r := p.finish.value.raw, p.finish.value.reason;
         && raw == LastReason(AllChoices(chunks)) && IsLastUsage(chunks, p.finish.value.usage)
         && (r == FinishError <==> failure.Some?)
         && (failure == None ==>
               && (r == FinishStop <==> raw == "stop") && (r == FinishLength <==> raw == "length")
               && (r == FinishToolCalls <==> raw in {"tool_calls", "function_call"})
               && (r == FinishContentFilter <==> raw == "content_filter")
               && (r == FinishOther <==> raw !in {"stop", "length", "tool_calls", "function_call", "content_filter"}))
  {
    ReasonIsTheLast(chunks);
    UsageIsTheLast(chunks);
  }

  function ToolDeltas(parts: seq<Part>): seq<Part> {
    if parts == [] then []
    else
      var p := parts[|parts| - 1];
      ToolDeltas(parts[..|parts| - 1]) + if p.ToolInputDelta? then [p] else []
  }

  /** The pieces of arguments as they come, each under the last id that its call has had
      by then. */
  function ArgumentDeltas(shards: seq<Shard>): seq<Part> {
    if shards == [] then []
    else
      var s := shards[|shards| - 1];
      ArgumentDeltas(shards[..|shards| - 1])
      + if s.args == "" then [] else [ToolInputDelta(LastId(Only(shards, s.index)), s.args)]
  }

  ghost predicate DeltasMatch(st: Seen) {
    ToolDeltas(st.deltas) == ArgumentDeltas(st.shards)
  }

  lemma {:induction false} ToolDeltasNext(parts: seq<Part>, p: Part)
    ensures ToolDeltas(parts + [p]) == ToolDeltas(parts) + if p.ToolInputDelta? then [p] else []
  {
    assert (parts + [p])[..|parts|] == parts;
  }

  lemma {:induction false} MatchByText(st: Seen, text: string)
    requires DeltasMatch(st)
    ensures DeltasMatch(SeeText(st, text))
  {
    ToolDeltasNext(st.deltas, TextDelta(text));
    assert ToolDeltas(st.deltas) + [] == ToolDeltas(st.deltas);
  }

  lemma {:induction false} MatchByShards(st: Seen, shards: seq<Shard>)
    requires DeltasMatch(st)
    ensures DeltasMatch(SeeShards(st, shards))
  {
    if shards != [] {
      var before, s := SeeShards(st, shards[..|shards| - 1]), shards[|shards| - 1];
      MatchByShards(st, shards[..|shards| - 1]);
      assert (before.shards + [s])[..|before.shards|] == before.shards;
      ToolDeltasNext(before.deltas, ToolInputDelta(LastId(Only(before.shards + [s], s.index)), s.args));
      assert ArgumentDeltas(before.shards) + [] == ArgumentDeltas(before.shards);
    }
  }

  lemma {:induction false} MatchByChoices(st: Seen, choices: seq<Choice>)
    requires DeltasMatch(st)
    ensures DeltasMatch(SeeChoices(st, choices))
  {
    if choices != [] {
      var before, c := choices[..|choices| - 1], choices[|choices| - 1];
      MatchByChoices(st, before);
      MatchByText(SeeChoices(st, before), c.content);
      MatchByShards(SeeText(SeeChoices(st, before), c.content), c.shards);
    }
  }

  /** Each piece of arguments goes out once, in order, under the id of its call. */
  lemma {:induction false} ArgumentsStreamOut(chunks: seq<Chunk>)
    ensures ToolDeltas(See(chunks).deltas) == ArgumentDeltas(AllShards(chunks))
  {
    EverythingIsSeen(chunks);
    AllDeltasMatch(chunks);
  }

  lemma {:induction false} AllDeltasMatch(chunks: seq<Chunk>)
    ensures DeltasMatch(See(chunks))
  {
    if chunks != [] {
      AllDeltasMatch(chunks[..|chunks| - 1]);
      MatchByChoices(See(chunks[..|chunks| - 1]), chunks[|chunks| - 1].choices);
    }
  }
}
