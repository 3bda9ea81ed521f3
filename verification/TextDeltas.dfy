/** The two reconciliations of streamed text: opencode2.go compares the full text of a
    finished block with the deltas that went out before, and opencode.go makes deltas
    of growing snapshots. Texts are bytes, and the code keeps lengths only. */
module TextDeltas {
  import opened Collections

  /** An assistant event: a delta, or a text of its own. */
  datatype Out = Out(text: string, delta: bool)

  function Count(lengths: map<string, nat>, key: string): nat {
    if key in lengths then lengths[key] else 0
  }

  function Said(outs: seq<Out>): string {
    if outs == [] then "" else Said(outs[..|outs| - 1]) + outs[|outs| - 1].text
  }

  lemma {:induction false} SaidAppend(a: seq<Out>, b: seq<Out>)
    ensures Said(a + b) == Said(a) + Said(b)
  {
    if b == [] {
      assert a + b == a;
    } else {
      assert (a + b)[..|a + b| - 1] == a + b[..|b| - 1];
      SaidAppend(a, b[..|b| - 1]);
    }
  }

  // ------------------------------------------------------------------ OpenCode V2

  datatype Event = Delta(key: string, text: string) | Ended(key: string, text: string)

  /** What an event sends out when `seen` of its block went out before. */
  function Answer(seen: nat, e: Event): seq<Out> {
    if e.text == "" then []
    else if e.Delta? then [Out(e.text, true)]
    else if seen == |e.text| then []
    else if seen == 0 || seen > |e.text| then [Out(e.text, false)]
    else [Out(e.text[seen..], true)]
  }

  function SeenAfter(seen: nat, e: Event): nat {
    if e.text == "" then seen else if e.Delta? then seen + |e.text| else |e.text|
  }

  /** openCode2Session, as far as text blocks go. */
  class Session2 {
    var text: map<string, nat>

    constructor ()
      ensures text == map[]
    {
      text := map[];
    }

    /** A new prompt forgets the blocks of the turn before. */
    method NewTurn()
      modifies this
      ensures text == map[]
    {
      text := map[];
    }

    method TextDelta(key: string, delta: string) returns (outs: seq<Out>)
      modifies this
      ensures outs == Answer(Count(old(text), key), Delta(key, delta))
      ensures outs == (if delta == "" then [] else [Out(delta, true)])
      ensures Count(text, key) == Count(old(text), key) + |delta|
      ensures Count(text, key) == SeenAfter(Count(old(text), key), Delta(key, delta))
      ensures forall k :: k != key ==> Count(text, k) == Count(old(text), k)
    {
      if delta == "" {
        return [];
      }
      text := text[key := Count(text, key) + |delta|];
      return [Out(delta, true)];
    }

    method TextEnded(key: string, full: string) returns (outs: seq<Out>)
      modifies this
      ensures outs == Answer(Count(old(text), key), Ended(key, full))
      ensures full != "" ==> Count(text, key) == |full|
      ensures var seen := Count(old(text), key);
        && (outs == [] <==> full == "" || seen == |full|)
        && (outs == [Out(full, false)] <==> full != "" && (seen == 0 || seen > |full|))
        && (0 < seen < |full| ==> outs == [Out(full[seen..], true)])
      ensures Count(text, key) == SeenAfter(Count(old(text), key), Ended(key, full))
      ensures forall k :: k != key ==> Count(text, k) == Count(old(text), k)
    {
      if full == "" {
        return [];
      }
      var seen := Count(text, key);
      text := text[key := |full|];
      if seen == |full| {
        return [];
      } else if seen == 0 || seen > |full| {
        return [Out(full, false)];
      } else {
        return [Out(full[seen..], true)];
      }
    }
  }

  /** The events of one block. */
  function Only(events: seq<Event>, key: string): seq<Event> {
    if events == [] then []
    else
      var e := events[|events| - 1];
      Only(events[..|events| - 1], key) + if e.key == key then [e] else []
  }

  /** How much of a block went out, and what, when all the events of a turn came in. */
  function Seen(events: seq<Event>, key: string): nat {
    if events == [] then 0
    else
      var e := events[|events| - 1];
      var before := Seen(events[..|events| - 1], key);
      if e.key == key then SeenAfter(before, e) else before
  }

  function Outs(events: seq<Event>, key: string): seq<Out> {
    if events == [] then []
    else
      var e := events[|events| - 1];
      Outs(events[..|events| - 1], key) +
      if e.key == key then Answer(Seen(events[..|events| - 1], key), e) else []
  }

  /** A turn of the session: the map holds what Seen says, and each event sends what
      Outs says. */
  method RunTurn(s: Session2, events: seq<Event>) returns (outs: seq<(string, Out)>)
    modifies s
    ensures forall key :: Count(s.text, key) == Seen(events, key)
    ensures forall key :: ForKey(outs, key) == Outs(events, key)
  {
    s.NewTurn();
    outs := [];
    for i := 0 to |events|
      invariant forall key :: Count(s.text, key) == Seen(events[..i], key)
      invariant forall key :: ForKey(outs, key) == Outs(events[..i], key)
    {
      var e := events[i];
      assert events[..i + 1][..i] == events[..i];
      var sent: seq<Out>;
      match e {
        case Delta(key, text) => sent := s.TextDelta(key, text);
        case Ended(key, text) => sent := s.TextEnded(key, text);
      }
      forall key ensures ForKey(outs + Tagged(e.key, sent), key) == ForKey(outs, key) + if key == e.key then sent else [] {
        ForKeyTagged(outs, e.key, sent, key);
      }
      outs := outs + Tagged(e.key, sent);
    }
    assert events[..|events|] == events;
  }

  function Tagged(key: string, outs: seq<Out>): (r: seq<(string, Out)>) {
    if outs == [] then [] else Tagged(key, outs[..|outs| - 1]) + [(key, outs[|outs| - 1])]
  }

  function ForKey(outs: seq<(string, Out)>, key: string): seq<Out> {
    if outs == [] then []
    else
      var (k, o) := outs[|outs| - 1];
      ForKey(outs[..|outs| - 1], key) + if k == key then [o] else []
  }

  lemma {:induction false} ForKeyTagged(outs: seq<(string, Out)>, k: string, sent: seq<Out>, key: string)
    ensures ForKey(outs + Tagged(k, sent), key) == ForKey(outs, key) + if key == k then sent else []
  {
    if sent == [] {
      assert outs + [] == outs;
    } else {
      var n := |sent| - 1;
      var before := outs + Tagged(k, sent[..n]);
      ForKeyTagged(outs, k, sent[..n], key);
      SumAssociates(outs, Tagged(k, sent[..n]), [(k, sent[n])]);
      ForKeyNext(before, k, sent[n], key);
      assert sent == sent[..n] + [sent[n]];
      SumAssociates(ForKey(outs, key), if key == k then sent[..n] else [], if key == k then [sent[n]] else []);
    }
  }

  lemma {:induction false} ForKeyNext(outs: seq<(string, Out)>, k: string, o: Out, key: string)
    ensures ForKey(outs + [(k, o)], key) == ForKey(outs, key) + if key == k then [o] else []
  {
    assert (outs + [(k, o)])[..|outs|] == outs;
  }

  /** The text of a block depends on its own events only, however blocks interleave. */
  lemma {:induction false} BlocksAreIndependent(events: seq<Event>, key: string)
    ensures Seen(events, key) == Seen(Only(events, key), key)
    ensures Outs(events, key) == Outs(Only(events, key), key)
  {
    if events != [] {
      var before, e := events[..|events| - 1], events[|events| - 1];
      BlocksAreIndependent(before, key);
      if e.key == key {
        assert (Only(before, key) + [e])[..|Only(before, key)|] == Only(before, key);
      } else {
        assert Only(before, key) + [] == Only(before, key);
        assert Outs(before, key) + [] == Outs(before, key);
      }
    }
  }

  function Deltas(key: string, pieces: seq<string>): seq<Event> {
    if pieces == [] then [] else Deltas(key, pieces[..|pieces| - 1]) + [Delta(key, pieces[|pieces| - 1])]
  }

  function Joined(pieces: seq<string>): string {
    if pieces == [] then "" else Joined(pieces[..|pieces| - 1]) + pieces[|pieces| - 1]
  }

  lemma {:induction false} OneMore(events: seq<Event>, e: Event)
    ensures Seen(events + [e], e.key) == SeenAfter(Seen(events, e.key), e)
    ensures Said(Outs(events + [e], e.key)) == Said(Outs(events, e.key)) + Said(Answer(Seen(events, e.key), e))
  {
    assert (events + [e])[..|events|] == events;
    SaidAppend(Outs(events, e.key), Answer(Seen(events, e.key), e));
  }

  lemma {:induction false} AnswerSays(seen: nat, e: Event)
    ensures Said(Answer(seen, e)) ==
      if e.Delta? then e.text
      else if e.text == "" || seen == |e.text| then ""
      else if seen == 0 || seen > |e.text| then e.text
      else e.text[seen..]
  {
    var outs := Answer(seen, e);
    if outs != [] {
      assert outs[..0] == [];
    }
  }

  lemma {:induction false} DeltasSayThemselves(key: string, pieces: seq<string>)
    ensures Seen(Deltas(key, pieces), key) == |Joined(pieces)|
    ensures Said(Outs(Deltas(key, pieces), key)) == Joined(pieces)
  {
    if pieces != [] {
      var before, p := pieces[..|pieces| - 1], pieces[|pieces| - 1];
      DeltasSayThemselves(key, before);
      OneMore(Deltas(key, before), Delta(key, p));
      AnswerSays(Seen(Deltas(key, before), key), Delta(key, p));
    }
  }

  /** A block that streams and ends has sent exactly its full text just when the deltas
      are a prefix of that text; no delta at all is one. */
  lemma {:induction false} EndedTextIsExactIff(key: string, pieces: seq<string>, text: string)
    requires text != ""
    ensures var events := Deltas(key, pieces) + [Ended(key, text)];
      && Seen(events, key) == |text|
      && (Said(Outs(events, key)) == text <==> Joined(pieces) <= text)
  {
    var before, seen := Deltas(key, pieces), |Joined(pieces)|;
    DeltasSayThemselves(key, pieces);
    OneMore(before, Ended(key, text));
    AnswerSays(seen, Ended(key, text));
    EndedText(Joined(pieces), text);
  }

  lemma {:induction false} EndedText(sent: string, text: string)
    requires text != ""
    ensures var rest := if |sent| == |text| then "" else if |sent| == 0 || |sent| > |text| then text else text[|sent|..];
      sent + rest == text <==> sent <= text
  {
    if 0 < |sent| < |text| {
      assert text == text[..|sent|] + text[|sent|..];
      if sent + text[|sent|..] == text {
        assert text[..|sent|] == sent;
      }
    }
  }

  /** Ended events that repeat send nothing. */
  lemma {:induction false} RepeatedEndSaysNothing(events: seq<Event>, key: string, text: string, n: nat)
    requires Seen(events, key) == |text|
    ensures var more := events + seq(n, _ => Ended(key, text));
      Seen(more, key) == |text| && Said(Outs(more, key)) == Said(Outs(events, key))
  {
    if n == 0 {
      assert events + seq(0, _ => Ended(key, text)) == events;
    } else {
      var before := events + seq(n - 1, _ => Ended(key, text));
      RepeatedEndSaysNothing(events, key, text, n - 1);
      assert events + seq(n, _ => Ended(key, text)) == before + [Ended(key, text)];
      OneMore(before, Ended(key, text));
      AnswerSays(|text|, Ended(key, text));
    }
  }

  // ------------------------------------------------------------------ OpenCode V1

  /** What a snapshot of a part sends out when `prev` is the longest length so far. */
  function SnapshotOut(prev: nat, text: string): seq<Out> {
    if text == "" then []
    else if prev > |text| || prev == 0 then [Out(text, false)]
    else [Out(text[prev..], true)]
  }

  function Longest(prev: nat, text: string): nat {
    if |text| > prev then |text| else prev
  }

  /** openCodeSession, as far as text parts go. */
  class Session1 {
    var parts: map<string, nat>

    constructor ()
      ensures parts == map[]
    {
      parts := map[];
    }

    method ParseTextPart(id: string, text: string) returns (outs: seq<Out>)
      modifies this
      ensures outs == SnapshotOut(Count(old(parts), id), text)
      ensures Count(parts, id) >= |text| && Count(parts, id) in {|text|, Count(old(parts), id)}
      ensures var prev := Count(old(parts), id);
        && (outs == [] <==> text == "")
        && (outs == [Out(text, false)] <==> text != "" && (prev == 0 || prev > |text|))
        && (0 < prev <= |text| ==> outs == [Out(text[prev..], true)])
      ensures Count(parts, id) == Longest(Count(old(parts), id), text)
      ensures forall k :: k != id ==> Count(parts, k) == Count(old(parts), k)
    {
      if text == "" {
        return [];
      }
      var prev := Count(parts, id);
      if |text| > prev {
        parts := parts[id := |text|];
      }
      if prev > |text| {
        return [Out(text, false)];
      }
      if prev == 0 {
        return [Out(text, false)];
      }
      return [Out(text[prev..], true)];
    }
  }

  function LongestOf(snapshots: seq<string>): nat {
    if snapshots == [] then 0 else Longest(LongestOf(snapshots[..|snapshots| - 1]), snapshots[|snapshots| - 1])
  }

  /** Everything that the snapshots of one part send out, joined. */
  function Sent(snapshots: seq<string>): string {
    if snapshots == [] then ""
    else
      var before := snapshots[..|snapshots| - 1];
      Sent(before) + Said(SnapshotOut(LongestOf(before), snapshots[|snapshots| - 1]))
  }

  function Latest(snapshots: seq<string>): string {
    if snapshots == [] then "" else snapshots[|snapshots| - 1]
  }

  /** Each snapshot extends the one before. */
  predicate Grows(snapshots: seq<string>) {
    forall i :: 0 < i < |snapshots| ==> snapshots[i - 1] <= snapshots[i]
  }

  lemma {:induction false} SnapshotSays(prev: nat, text: string)
    ensures Said(SnapshotOut(prev, text)) == if prev > |text| || prev == 0 then text else text[prev..]
  {
    var outs := SnapshotOut(prev, text);
    if outs != [] {
      assert outs[..0] == [];
    }
  }

  lemma {:induction false} GrowingTextIsLatest(snapshots: seq<string>)
    requires Grows(snapshots)
    ensures Sent(snapshots) == Latest(snapshots) && LongestOf(snapshots) == |Latest(snapshots)|
  {
    if snapshots != [] {
      var before, text := snapshots[..|snapshots| - 1], snapshots[|snapshots| - 1];
      GrowingTextIsLatest(before);
      SnapshotSays(LongestOf(before), text);
      assert Latest(before) <= text by {
        if before != [] {
          assert snapshots[|snapshots| - 2] <= snapshots[|snapshots| - 1];
        }
      }
      Rejoined(Latest(before), text);
    }
  }

  lemma Rejoined(a: string, b: string)
    requires a <= b
    ensures a + b[|a|..] == b
  {
  }

  /** At every moment what went out is the latest snapshot, exactly when each snapshot
      extends the one before. */
  lemma {:induction false} SentIsLatestIff(snapshots: seq<string>)
    ensures (forall k :: 0 <= k <= |snapshots| ==> Sent(snapshots[..k]) == Latest(snapshots[..k])) <==> Grows(snapshots)
  {
    if Grows(snapshots) {
      forall k | 0 <= k <= |snapshots| ensures Sent(snapshots[..k]) == Latest(snapshots[..k]) {
        GrowingTextIsLatest(snapshots[..k]);
      }
    } else {
      var i :| 0 < i < |snapshots| && !(snapshots[i - 1] <= snapshots[i]);
      BrokenGrowth(snapshots, i);
    }
  }

  lemma {:induction false} BrokenGrowth(snapshots: seq<string>, i: nat)
    requires 0 < i < |snapshots| && !(snapshots[i - 1] <= snapshots[i])
    ensures exists k :: 0 <= k <= |snapshots| && Sent(snapshots[..k]) != Latest(snapshots[..k])
  {
    var before, now := snapshots[..i], snapshots[..i + 1];
    assert now[..i] == before;
    if Sent(before) == Latest(before) {
      SnapshotSays(LongestOf(before), snapshots[i]);
      LongestAtLeast(before);
      assert Sent(now) == Sent(before) + Said(SnapshotOut(LongestOf(before), snapshots[i]));
      assert Sent(now) != Latest(now);
    }
  }

  lemma {:induction false} LongestAtLeast(snapshots: seq<string>)
    ensures LongestOf(snapshots) >= |Latest(snapshots)|
  {
  }

  /** A part that shrank goes out whole with every snapshot, until it has outgrown its
      longest text. */
  lemma {:induction false} ShrunkTextComesAgain(snapshots: seq<string>, shorter: seq<string>)
    requires forall i :: 0 <= i < |shorter| ==> |shorter[i]| < LongestOf(snapshots)
    ensures LongestOf(snapshots + shorter) == LongestOf(snapshots)
    ensures Sent(snapshots + shorter) == Sent(snapshots) + Joined(shorter)
  {
    if shorter == [] {
      assert snapshots + shorter == snapshots;
    } else {
      var fewer, text := shorter[..|shorter| - 1], shorter[|shorter| - 1];
      ShrunkTextComesAgain(snapshots, fewer);
      SumAssociates(snapshots, fewer, [text]);
      assert shorter == fewer + [text];
      ShrunkNext(snapshots + fewer, text);
      SumAssociates(Sent(snapshots), Joined(fewer), text);
    }
  }

  lemma {:induction false} ShrunkNext(before: seq<string>, text: string)
    requires |text| < LongestOf(before)
    ensures LongestOf(before + [text]) == LongestOf(before) && Sent(before + [text]) == Sent(before) + text
  {
    SentNext(before, text);
  }

  lemma {:induction false} SentNext(before: seq<string>, text: string)
    ensures LongestOf(before + [text]) == Longest(LongestOf(before), text)
    ensures |text| < LongestOf(before) ==> Sent(before + [text]) == Sent(before) + text
  {
    assert (before + [text])[..|before|] == before;
    SnapshotSays(LongestOf(before), text);
  }

  /** A snapshot that comes twice in a row sends nothing the second time, exactly when
      it is empty or no shorter than the longest before it. */
  lemma {:induction false} RepeatSaysNothingIff(before: seq<string>, text: string)
    ensures Sent(before + [text] + [text]) == Sent(before + [text]) <==> text == "" || |text| >= LongestOf(before)
  {
    var once := before + [text];
    assert once[..|before|] == before && (once + [text])[..|once|] == once;
    SnapshotSays(LongestOf(once), text);
    assert Sent(once + [text]) == Sent(once) + if |text| >= LongestOf(before) then "" else text;
  }
}
