/** The outbox of internal/wire/send.go: prompts sent during a turn are held and
    later joined into one followup turn, or handed back.

    Class Outbox has one method per mutex section. The sections are also steps
    of a machine in which any number of Send, Flush and Drop calls interleave;
    Active, Steer and Prompt answer freely. A step that is not enabled leaves
    the machine as it is, so every sequence of steps is a run. */
module Outbox {
  import opened Collections

  datatype Attachment = Attachment(path: string)

  datatype Prompt = Prompt(kind: string, text: string, attachments: seq<Attachment>)

  /** What Steer answers: done, unsupported, no active turn, or another error. */
  datatype SteerAnswer = SteerOk | SteerUnsupported | SteerNoTurn | SteerFailed

  /** How a finished Send ended. A held prompt keeps the ticket that hold gave
      it: its position in the log of accepted prompts. */
  datatype Outcome = Steered | Failed | Prompted(failed: bool) | Held(ticket: nat)

  datatype SendState =
    | Routing(p: Prompt)
    | Holding(p: Prompt)
    | Prompting(p: Prompt)
    | Finished(p: Prompt, outcome: Outcome)

  /** Send up to hold: `steer` is None when the session cannot steer. */
  function RouteOf(p: Prompt, active: bool, steer: Option<SteerAnswer>, concurrent: bool): SendState {
    if !active then Holding(p)
    else match steer
      case Some(SteerOk) => Finished(p, Steered)
      case Some(SteerFailed) => Finished(p, Failed)
      case Some(_) => Holding(p)
      case None => if concurrent then Prompting(p) else Holding(p)
  }

  // ---------------------------------------------------------------- sections

  /** The two fields that the mutex guards. */
  datatype Box = Box(held: seq<Prompt>, flushing: bool)

  /** The section of hold. */
  function HoldSection(b: Box, active: bool, p: Prompt): (Box, bool) {
    if !b.flushing && !active then (b, false) else (b.(held := b.held + [p]), true)
  }

  /** The first section of Flush. */
  function TakeSection(b: Box): (Box, seq<Prompt>) {
    (Box([], |b.held| > 0), b.held)
  }

  /** The section of Drop. */
  function DropSection(b: Box): (Box, seq<Prompt>) {
    (b.(held := []), b.held)
  }

  class Outbox {
    var held: seq<Prompt>
    var flushing: bool

    function State(): Box
      reads this
    {
      Box(held, flushing)
    }

    constructor ()
      ensures State() == Box([], false)
    {
      held, flushing := [], false;
    }

    /** The section of hold: true means p is queued, false means the caller
        prompts with the lock released. */
    method Hold(active: bool, p: Prompt) returns (queued: bool)
      modifies this
      ensures (State(), queued) == HoldSection(old(State()), active, p)
      ensures queued <==> active || old(flushing)
      ensures held == (if queued then old(held) + [p] else old(held)) && flushing == old(flushing)
    {
      if !flushing && !active {
        return false;
      }
      held := held + [p];
      return true;
    }

    /** Send with no other call in between. `active` and `stillActive` are the
        answers of Active before the routing and inside hold. The prompt goes
        to the vendor at most once, never during a turn that the vendor cannot
        take it in, and is queued exactly when it goes nowhere else. */
    method Send(p: Prompt, active: bool, steer: Option<SteerAnswer>, concurrent: bool,
                stillActive: bool, fails: bool, ticket: nat)
      returns (outcome: Outcome)
      modifies this
      ensures outcome == Steered <==> active && steer == Some(SteerOk)
      ensures outcome == Failed <==> active && steer == Some(SteerFailed)
      ensures outcome.Prompted? <==>
        || (active && steer == None && concurrent)
        || (outcome !in {Steered, Failed} && !old(flushing) && !stillActive)
      ensures outcome.Prompted? ==> outcome.failed == fails
      ensures outcome.Held? ==> outcome.ticket == ticket
      ensures State() == if outcome.Held? then old(State()).(held := old(held) + [p]) else old(State())
    {
      match RouteOf(p, active, steer, concurrent)
      case Finished(_, done) => return done;
      case Prompting(_) => return Prompted(fails);
      case Holding(_) =>
        var queued := Hold(stillActive, p);
        return if queued then Held(ticket) else Prompted(fails);
    }

    method Pending() returns (waiting: bool)
      ensures waiting <==> held != []
    {
      waiting := |held| > 0;
    }

    /** The first section of Flush. */
    method Take() returns (batch: seq<Prompt>)
      modifies this
      ensures (State(), batch) == TakeSection(old(State()))
      ensures batch == old(held) && held == [] && (flushing <==> old(held) != [])
    {
      batch := held;
      held := [];
      flushing := |batch| > 0;
    }

    /** The second section of Flush. */
    method EndFlush()
      modifies this
      ensures !flushing && held == old(held)
    {
      flushing := false;
    }

    /** Flush with no other call in between: `failed` is the answer of the
        prompt callback, `asked` what it was asked to send. */
    method Flush(failed: bool) returns (asked: Option<Prompt>, unsent: seq<Prompt>)
      modifies this
      ensures held == [] && !flushing
      ensures asked == if old(held) == [] then None else Some(Joined(old(held)))
      ensures unsent == if failed then old(held) else []
    {
      var batch := Take();
      if |batch| == 0 {
        return None, [];
      }
      var followup := JoinHeld(batch);
      EndFlush();
      return Some(followup), if failed then batch else [];
    }

    method Drop() returns (batch: seq<Prompt>)
      modifies this
      ensures (State(), batch) == DropSection(old(State()))
      ensures batch == old(held) && held == [] && flushing == old(flushing)
    {
      batch := held;
      held := [];
    }
  }

  // ---------------------------------------------------------------- joinHeld

  const BLANK_LINE := "\n\n"

  function JoinTexts(texts: seq<string>): string {
    if texts == [] then ""
    else if |texts| == 1 then texts[0]
    else JoinTexts(texts[..|texts| - 1]) + BLANK_LINE + texts[|texts| - 1]
  }

  function Texts(held: seq<Prompt>): seq<string> {
    seq(|held|, i requires 0 <= i < |held| => held[i].text)
  }

  function AttachmentLists(held: seq<Prompt>): seq<seq<Attachment>> {
    seq(|held|, i requires 0 <= i < |held| => held[i].attachments)
  }

  function Joined(held: seq<Prompt>): Prompt {
    Prompt("followup", JoinTexts(Texts(held)), Flatten(AttachmentLists(held)))
  }

  method JoinHeld(held: seq<Prompt>) returns (out: Prompt)
    ensures out == Joined(held)
  {
    var texts: seq<string> := [];
    var attachments: seq<Attachment> := [];
    for i := 0 to |held|
      invariant texts == Texts(held[..i])
      invariant attachments == Flatten(AttachmentLists(held[..i]))
    {
      assert AttachmentLists(held[..i + 1]) == AttachmentLists(held[..i]) + [held[i].attachments];
      FlattenSnoc(AttachmentLists(held[..i]), held[i].attachments);
      texts := texts + [held[i].text];
      attachments := attachments + held[i].attachments;
    }
    assert held[..|held|] == held;
    out := Prompt("followup", JoinTexts(texts), attachments);
  }

  /** Joining in one go and joining two halves agree: texts and attachments keep
      the order in which the prompts were accepted. A single prompt keeps its own. */
  lemma {:induction false} JoinedKeepsOrder(a: seq<Prompt>, b: seq<Prompt>)
    requires a != [] && b != []
    ensures Joined(a + b).text == Joined(a).text + "\n\n" + Joined(b).text
    ensures Joined(a + b).attachments == Joined(a).attachments + Joined(b).attachments
    ensures |a| == 1 ==> Joined(a) == Prompt("followup", a[0].text, a[0].attachments)
    ensures Joined(a + b).kind == "followup"
  {
    if |a| == 1 {
      assert AttachmentLists(a)[..0] == [];
      assert [] + a[0].attachments == a[0].attachments;
    }
    assert Texts(a + b) == Texts(a) + Texts(b);
    JoinTextsAppend(Texts(a), Texts(b));
    assert AttachmentLists(a + b) == AttachmentLists(a) + AttachmentLists(b);
    FlattenAppend(AttachmentLists(a), AttachmentLists(b));
  }

  lemma {:induction false} JoinTextsAppend(a: seq<string>, b: seq<string>)
    requires a != [] && b != []
    ensures JoinTexts(a + b) == JoinTexts(a) + BLANK_LINE + JoinTexts(b)
  {
    var n := |b| - 1;
    assert (a + b)[..|a + b| - 1] == a + b[..n];
    if n == 0 {
      assert a + b[..n] == a;
    } else {
      JoinTextsAppend(a, b[..n]);
      assert JoinTexts(b) == JoinTexts(b[..n]) + BLANK_LINE + b[n];
      assert JoinTexts(a + b) == JoinTexts(a + b[..n]) + BLANK_LINE + b[n];
      assert JoinTexts(a) + BLANK_LINE + JoinTexts(b)
          == (JoinTexts(a) + BLANK_LINE + JoinTexts(b[..n])) + BLANK_LINE + b[n];
    }
  }

  // ----------------------------------------------------------------- machine

  datatype Fate = Running | Sent | Returned

  /** The prompts that one Flush or Drop took, and what became of them. */
  datatype Batch = Batch(prompts: seq<Prompt>, fate: Fate)

  /** `accepted` and `owners` are logs: prompt and Send call of each ticket. */
  datatype System = System(
    box: Box,
    sends: map<nat, SendState>,
    accepted: seq<Prompt>,
    owners: seq<nat>,
    batches: seq<Batch>)

  datatype Step =
    | Begin(id: nat, p: Prompt)
    | Route(id: nat, active: bool, steer: Option<SteerAnswer>, concurrent: bool)
    | Hold(id: nat, active: bool)
    | PromptReturns(id: nat, failed: bool)
    | Take
    | FlushReturns(batch: nat, failed: bool)
    | Drop

  const INITIAL := System(Box([], false), map[], [], [], [])

  function Apply(s: System, step: Step): System {
    match step
    case Begin(id, p) =>
      if id in s.sends then s else s.(sends := s.sends[id := Routing(p)])
    case Route(id, active, steer, concurrent) =>
      if id !in s.sends || !s.sends[id].Routing? then s
      else s.(sends := s.sends[id := RouteOf(s.sends[id].p, active, steer, concurrent)])
    case Hold(id, active) =>
      if id !in s.sends || !s.sends[id].Holding? then s
      else
        var p := s.sends[id].p;
        var (box, queued) := HoldSection(s.box, active, p);
        if !queued then s.(box := box, sends := s.sends[id := Prompting(p)])
        else s.(box := box,
                sends := s.sends[id := Finished(p, Held(|s.accepted|))],
                accepted := s.accepted + [p],
                owners := s.owners + [id])
    case PromptReturns(id, failed) =>
      if id !in s.sends || !s.sends[id].Prompting? then s
      else s.(sends := s.sends[id := Finished(s.sends[id].p, Prompted(failed))])
    case Take =>
      var (box, batch) := TakeSection(s.box);
      if batch == [] then s.(box := box)
      else s.(box := box, batches := s.batches + [Batch(batch, Running)])
    case FlushReturns(i, failed) =>
      if i >= |s.batches| || !s.batches[i].fate.Running? then s
      else s.(box := s.box.(flushing := false),
              batches := s.batches[i := s.batches[i].(fate := if failed then Returned else Sent)])
    case Drop =>
      var (box, batch) := DropSection(s.box);
      s.(box := box, batches := s.batches + [Batch(batch, Returned)])
  }

  function Exec(steps: seq<Step>): System {
    if steps == [] then INITIAL
    else Apply(Exec(steps[..|steps| - 1]), steps[|steps| - 1])
  }

  // ------------------------------------------------------------ conservation

  function Taken(batches: seq<Batch>): seq<seq<Prompt>> {
    seq(|batches|, i requires 0 <= i < |batches| => batches[i].prompts)
  }

  /** The batches, one after the other, followed by the queue, are the accepted
      prompts in the order of acceptance. */
  ghost predicate Conserved(s: System) {
    && s.accepted == Flatten(Taken(s.batches)) + s.box.held
    && |s.owners| == |s.accepted|
  }

  /** Tickets and held Sends correspond one to one. */
  ghost predicate Ticketed(s: System) {
    && |s.owners| == |s.accepted|
    && (forall t :: 0 <= t < |s.owners| ==>
          s.owners[t] in s.sends && s.sends[s.owners[t]] == Finished(s.accepted[t], Held(t)))
    && (forall id :: id in s.sends && s.sends[id].Finished? && s.sends[id].outcome.Held? ==>
          s.sends[id].outcome.ticket < |s.owners| && s.owners[s.sends[id].outcome.ticket] == id)
  }

  lemma {:induction false} ConservedByStep(s: System, step: Step)
    requires Conserved(s)
    ensures Conserved(Apply(s, step))
  {
    var s' := Apply(s, step);
    if s'.batches != s.batches {
      if |s'.batches| == |s.batches| {
        assert Taken(s'.batches) == Taken(s.batches);
      } else {
        assert Taken(s'.batches) == Taken(s.batches) + [s.box.held];
        FlattenSnoc(Taken(s.batches), s.box.held);
      }
    }
  }

  lemma {:induction false} TicketedByStep(s: System, step: Step)
    requires Ticketed(s)
    ensures Ticketed(Apply(s, step))
  {
    var s' := Apply(s, step);
    if s'.owners == s.owners {
      forall id | id in s'.sends && s'.sends[id].Finished? && s'.sends[id].outcome.Held?
        ensures id in s.sends && s.sends[id] == s'.sends[id]
      {}
    }
  }

  /** In every run of Sends, Flushes and Drops nothing that hold accepted is
      lost, duplicated or reordered. */
  lemma {:induction false} AlwaysConserved(steps: seq<Step>)
    ensures Conserved(Exec(steps)) && Ticketed(Exec(steps))
  {
    if steps != [] {
      AlwaysConserved(steps[..|steps| - 1]);
      ConservedByStep(Exec(steps[..|steps| - 1]), steps[|steps| - 1]);
      TicketedByStep(Exec(steps[..|steps| - 1]), steps[|steps| - 1]);
    }
  }

  /** The number of prompts taken by the batches before batch i. */
  function Offset(batches: seq<Batch>, i: nat): nat
    requires i <= |batches|
  {
    |Flatten(Taken(batches[..i]))|
  }

  ghost predicate InBatch(s: System, ticket: nat, i: nat) {
    i < |s.batches| && Offset(s.batches, i) <= ticket < Offset(s.batches, i) + |s.batches[i].prompts|
  }

  ghost predicate InQueue(s: System, ticket: nat) {
    Offset(s.batches, |s.batches|) <= ticket < Offset(s.batches, |s.batches|) + |s.box.held|
  }

  lemma {:induction false} OffsetNext(batches: seq<Batch>, i: nat)
    requires i < |batches|
    ensures Flatten(Taken(batches[..i + 1])) == Flatten(Taken(batches[..i])) + batches[i].prompts
  {
    assert Taken(batches[..i + 1]) == Taken(batches[..i]) + [batches[i].prompts];
    FlattenSnoc(Taken(batches[..i]), batches[i].prompts);
  }

  lemma {:induction false} OffsetMonotone(batches: seq<Batch>, i: nat, j: nat)
    requires i <= j <= |batches|
    ensures Flatten(Taken(batches[..i])) <= Flatten(Taken(batches[..j]))
  {
    if i < j {
      OffsetMonotone(batches, i, j - 1);
      OffsetNext(batches, j - 1);
    }
  }

  /** Finds the batch of a ticket that some Flush or Drop took. */
  lemma {:induction false} FindBatch(s: System, ticket: nat, k: nat) returns (i: nat)
    requires k <= |s.batches| && ticket < Offset(s.batches, k)
    ensures InBatch(s, ticket, i)
  {
    OffsetNext(s.batches, k - 1);
    if Offset(s.batches, k - 1) <= ticket {
      i := k - 1;
    } else {
      i := FindBatch(s, ticket, k - 1);
    }
  }

  /** A ticket of batch i lies before every later batch and before the queue,
      and the batch holds the prompt that was accepted under it. */
  lemma {:induction false} InBatchFacts(s: System, ticket: nat, i: nat)
    requires Conserved(s) && InBatch(s, ticket, i)
    ensures ticket < |s.accepted|
    ensures s.batches[i].prompts[ticket - Offset(s.batches, i)] == s.accepted[ticket]
    ensures forall j :: i < j <= |s.batches| ==> ticket < Offset(s.batches, j)
  {
    OffsetNext(s.batches, i);
    forall j | i < j <= |s.batches| ensures ticket < Offset(s.batches, j) {
      OffsetMonotone(s.batches, i + 1, j);
    }
    OffsetMonotone(s.batches, i + 1, |s.batches|);
    assert s.batches[..|s.batches|] == s.batches;
  }

  /** Each ticket is in the queue or in one batch, in exactly one of them, and
      what lies there is the prompt that was accepted under the ticket. The
      fate of its batch says whether a Flush still carries it, sent it, or
      handed it back. */
  lemma {:induction false} ExactlyOnePlace(steps: seq<Step>, ticket: nat)
    requires ticket < |Exec(steps).accepted|
    ensures var s := Exec(steps);
      && (InQueue(s, ticket) <==> forall i: nat :: !InBatch(s, ticket, i))
      && (forall i: nat, j: nat :: InBatch(s, ticket, i) && InBatch(s, ticket, j) ==> i == j)
      && (forall i: nat :: InBatch(s, ticket, i) ==>
            s.batches[i].prompts[ticket - Offset(s.batches, i)] == s.accepted[ticket])
      && (InQueue(s, ticket) ==>
            s.box.held[ticket - Offset(s.batches, |s.batches|)] == s.accepted[ticket])
  {
    var s := Exec(steps);
    AlwaysConserved(steps);
    assert s.batches[..|s.batches|] == s.batches;
    forall i: nat | InBatch(s, ticket, i)
      ensures s.batches[i].prompts[ticket - Offset(s.batches, i)] == s.accepted[ticket]
      ensures forall j :: i < j <= |s.batches| ==> ticket < Offset(s.batches, j)
    {
      InBatchFacts(s, ticket, i);
    }
    if ticket < Offset(s.batches, |s.batches|) {
      var i := FindBatch(s, ticket, |s.batches|);
    }
  }

  /** What later steps may do to the batches of earlier ones: nothing, except
      that a running batch is settled, once. */
  ghost predicate Settles(before: seq<Batch>, after: seq<Batch>) {
    && |before| <= |after|
    && forall i :: 0 <= i < |before| ==>
         && after[i].prompts == before[i].prompts
         && (before[i].fate != Running ==> after[i].fate == before[i].fate)
  }

  lemma {:induction false} FateIsFinal(steps: seq<Step>, more: seq<Step>)
    ensures Settles(Exec(steps).batches, Exec(steps + more).batches)
    ensures Exec(steps).accepted <= Exec(steps + more).accepted
  {
    if more == [] {
      assert steps + more == steps;
    } else {
      var n := |more| - 1;
      assert (steps + more)[..|steps + more| - 1] == steps + more[..n];
      FateIsFinal(steps, more[..n]);
    }
  }

  /** A Drop takes every ticket out of the queue, and hands them all back in one batch. */
  lemma {:induction false} DropHandsBackTheQueue(steps: seq<Step>)
    ensures var s, s' := Exec(steps), Exec(steps + [Drop]);
      && (forall ticket: nat :: !InQueue(s', ticket))
      && (forall ticket: nat :: InQueue(s, ticket) <==> InBatch(s', ticket, |s.batches|))
      && |s'.batches| == |s.batches| + 1 && s'.batches[|s.batches|].fate == Returned
  {
    assert (steps + [Drop])[..|steps|] == steps;
    TakenByBatch(Exec(steps), Exec(steps + [Drop]));
  }

  /** A Flush takes every ticket out of the queue, and carries them all in one batch until
      its prompt returns; then they are handed back if it failed, and sent if not. */
  lemma {:induction false} FlushCarriesTheQueue(steps: seq<Step>, more: seq<Step>, failed: bool)
    requires Exec(steps).box.held != []
    requires var i := |Exec(steps).batches|;
      i < |Exec(steps + [Take] + more).batches| && Exec(steps + [Take] + more).batches[i].fate.Running?
    ensures var s, s' := Exec(steps), Exec(steps + [Take]);
      && (forall ticket: nat :: !InQueue(s', ticket))
      && (forall ticket: nat :: InQueue(s, ticket) <==> InBatch(s', ticket, |s.batches|))
      && |s'.batches| == |s.batches| + 1 && s'.batches[|s.batches|].fate == Running
    ensures var i, t := |Exec(steps).batches|, Exec(steps + [Take] + more);
      var t' := Exec(steps + [Take] + more + [FlushReturns(i, failed)]);
      && t'.batches == t.batches[i := t.batches[i].(fate := if failed then Returned else Sent)]
      && t'.box.held == t.box.held && t.batches[i].prompts == Exec(steps).box.held
  {
    assert (steps + [Take])[..|steps|] == steps;
    TakenByBatch(Exec(steps), Exec(steps + [Take]));
    FateIsFinal(steps + [Take], more);
    var before := steps + [Take] + more;
    assert (before + [FlushReturns(|Exec(steps).batches|, failed)])[..|before|] == before;
  }

  lemma {:induction false} TakenByBatch(s: System, s': System)
    requires s'.box.held == [] && |s'.batches| == |s.batches| + 1 && s'.batches[..|s.batches|] == s.batches
    requires s'.batches[|s.batches|].prompts == s.box.held
    ensures forall ticket: nat :: !InQueue(s', ticket)
    ensures forall ticket: nat :: InQueue(s, ticket) <==> InBatch(s', ticket, |s.batches|)
  {
    assert s.batches[..|s.batches|] == s.batches;
  }

  // ---------------------------------------------------------------- flushing

  ghost predicate FlushRuns(s: System) {
    exists i :: 0 <= i < |s.batches| && s.batches[i].fate.Running?
  }

  ghost predicate OneFlushAtMost(s: System) {
    forall i, j | 0 <= i < j < |s.batches| ::
      !(s.batches[i].fate.Running? && s.batches[j].fate.Running?)
  }

  /** A run in which each Flush starts after the previous one ended, as on the
      read loop. */
  ghost predicate Serialized(steps: seq<Step>) {
    forall k :: 0 <= k < |steps| && steps[k].Take? ==> !FlushRuns(Exec(steps[..k]))
  }

  /** With serialized flushes, `flushing` is true exactly while a Flush carries a
      batch. */
  lemma {:induction false} FlushingIsExact(steps: seq<Step>)
    requires Serialized(steps)
    ensures Exec(steps).box.flushing <==> FlushRuns(Exec(steps))
    ensures OneFlushAtMost(Exec(steps))
  {
    if steps != [] {
      var n := |steps| - 1;
      var s, step := Exec(steps[..n]), steps[n];
      assert Serialized(steps[..n]) by {
        forall k | 0 <= k < n && steps[..n][k].Take? ensures !FlushRuns(Exec(steps[..n][..k])) {
          assert steps[..n][..k] == steps[..k];
        }
      }
      FlushingIsExact(steps[..n]);
      FlushingStep(s, step);
    }
  }

  lemma {:induction false} FlushingStep(s: System, step: Step)
    requires s.box.flushing <==> FlushRuns(s)
    requires OneFlushAtMost(s)
    requires step.Take? ==> !FlushRuns(s)
    ensures var s' := Apply(s, step); (s'.box.flushing <==> FlushRuns(s')) && OneFlushAtMost(s')
  {
    var s' := Apply(s, step);
    if FlushRuns(s) {
      var i :| 0 <= i < |s.batches| && s.batches[i].fate.Running?;
      assert s'.batches[i].fate.Running? || step == FlushReturns(i, step.failed);
    }
    if step.Take? && s.box.held != [] {
      assert s'.batches[|s.batches|].fate.Running?;
    }
  }

  /** While a serialized Flush carries a batch, a Send that reaches hold is
      queued behind it, whatever Active answers. */
  lemma {:induction false} NoOvertakingWhileFlushing(steps: seq<Step>, id: nat, active: bool)
    requires Serialized(steps) && FlushRuns(Exec(steps))
    requires id in Exec(steps).sends && Exec(steps).sends[id].Holding?
    ensures var s, s' := Exec(steps), Exec(steps + [Hold(id, active)]);
      && s'.sends[id] == Finished(s.sends[id].p, Held(|s.accepted|))
      && s'.box.held == s.box.held + [s.sends[id].p]
  {
    FlushingIsExact(steps);
    assert (steps + [Hold(id, active)])[..|steps|] == steps;
  }

  /** The flag says whether a Flush carries a batch. */
  ghost predicate FlagExact(s: System) {
    s.box.flushing <==> FlushRuns(s)
  }

  /** A Flush other than the i-th carries a batch. */
  ghost predicate OtherRuns(s: System, i: nat) {
    exists j :: 0 <= j < |s.batches| && j != i && s.batches[j].fate.Running?
  }

  /** What keeps the flag exact: a Flush that finds nothing must not start while
      another one runs, and none must end while another one runs. */
  ghost predicate Undisturbed(s: System, step: Step) {
    && (step.Take? && s.box.held == [] ==> !FlushRuns(s))
    && (step.FlushReturns? && step.batch < |s.batches| && s.batches[step.batch].fate.Running? ==> !OtherRuns(s, step.batch))
  }

  lemma {:induction false} StepKeepsFlagIff(s: System, step: Step)
    requires FlagExact(s)
    ensures FlagExact(Apply(s, step)) <==> Undisturbed(s, step)
  {
    var s' := Apply(s, step);
    if step.Take? {
      if s.box.held != [] {
        assert s'.batches[|s.batches|].fate.Running?;
      } else {
        assert FlushRuns(s') <==> FlushRuns(s);
      }
    } else if step.FlushReturns? {
      EndKeepsFlagIff(s, step.batch, step.failed);
    } else if step.Drop? {
      DropRunsNothing(s);
    }
  }

  lemma {:induction false} EndKeepsFlagIff(s: System, i: nat, failed: bool)
    requires FlagExact(s)
    ensures FlagExact(Apply(s, FlushReturns(i, failed))) <==> Undisturbed(s, FlushReturns(i, failed))
  {
    var s' := Apply(s, FlushReturns(i, failed));
    if s' != s {
      forall j | 0 <= j < |s.batches| ensures s'.batches[j].fate.Running? <==> j != i && s.batches[j].fate.Running? {}
      assert FlushRuns(s') <==> OtherRuns(s, i);
    }
  }

  lemma {:induction false} DropRunsNothing(s: System)
    ensures FlushRuns(Apply(s, Drop)) <==> FlushRuns(s)
  {
    var s' := Apply(s, Drop);
    forall j | 0 <= j < |s.batches| ensures s'.batches[j] == s.batches[j] {}
  }

  /** Over any run the flag is exact at every moment if and only if no step disturbs
      it: neither the start of a Flush that finds nothing nor the end of one, while
      another one runs. */
  lemma {:induction false} FlagIsAlwaysExactIff(steps: seq<Step>)
    ensures (forall k :: 0 <= k <= |steps| ==> FlagExact(Exec(steps[..k]))) <==>
      forall k :: 0 <= k < |steps| ==> Undisturbed(Exec(steps[..k]), steps[k])
  {
    if forall k :: 0 <= k <= |steps| ==> FlagExact(Exec(steps[..k])) {
      forall k | 0 <= k < |steps| ensures Undisturbed(Exec(steps[..k]), steps[k]) {
        ExecTakes(steps, k);
        assert FlagExact(Exec(steps[..k + 1]));
        StepKeepsFlagIff(Exec(steps[..k]), steps[k]);
      }
    }
    if forall k :: 0 <= k < |steps| ==> Undisturbed(Exec(steps[..k]), steps[k]) {
      forall k | 0 <= k <= |steps| ensures FlagExact(Exec(steps[..k])) {
        FlagExactSoFar(steps, k);
      }
    }
  }

  lemma {:induction false} FlagExactSoFar(steps: seq<Step>, k: nat)
    requires k <= |steps| && forall j :: 0 <= j < |steps| ==> Undisturbed(Exec(steps[..j]), steps[j])
    ensures FlagExact(Exec(steps[..k]))
  {
    if k > 0 {
      FlagExactSoFar(steps, k - 1);
      ExecTakes(steps, k - 1);
      StepKeepsFlagIff(Exec(steps[..k - 1]), steps[k - 1]);
    } else {
      assert !FlushRuns(INITIAL);
    }
  }

  /** Over any run the flag is exact and at most one Flush carries a batch, at every
      moment, if and only if the flushes are serialized. */
  lemma {:induction false} OneExactFlushIffSerialized(steps: seq<Step>)
    ensures (forall k :: 0 <= k <= |steps| ==> FlagExact(Exec(steps[..k])) && OneFlushAtMost(Exec(steps[..k])))
      <==> Serialized(steps)
  {
    if Serialized(steps) {
      forall k | 0 <= k <= |steps| ensures FlagExact(Exec(steps[..k])) && OneFlushAtMost(Exec(steps[..k])) {
        forall j | 0 <= j < k && steps[..k][j].Take? ensures !FlushRuns(Exec(steps[..k][..j])) {
          assert steps[..k][..j] == steps[..j];
        }
        FlushingIsExact(steps[..k]);
      }
    }
    if forall k :: 0 <= k <= |steps| ==> FlagExact(Exec(steps[..k])) && OneFlushAtMost(Exec(steps[..k])) {
      forall k | 0 <= k < |steps| && steps[k].Take? ensures !FlushRuns(Exec(steps[..k])) {
        ExecTakes(steps, k);
        var s := Exec(steps[..k]);
        assert FlagExact(Exec(steps[..k + 1])) && OneFlushAtMost(Exec(steps[..k + 1]));
        TakeAloneIff(s);
      }
    }
  }

  /** The start of a Flush keeps the flag exact and the Flush alone only where no
      other one runs. */
  lemma {:induction false} TakeAloneIff(s: System)
    requires FlagExact(s)
    ensures FlagExact(Apply(s, Take)) && OneFlushAtMost(Apply(s, Take)) ==> !FlushRuns(s)
  {
    StepKeepsFlagIff(s, Take);
    if FlushRuns(s) && s.box.held != [] {
      var i :| 0 <= i < |s.batches| && s.batches[i].fate.Running?;
      var s' := Apply(s, Take);
      assert s'.batches[i].fate.Running? && s'.batches[|s.batches|].fate.Running?;
    }
  }

  /** Two concurrent Flushes: the second finds nothing and clears `flushing`, so
      a prompt q that reaches hold now overtakes the batch that the first still
      carries. */
  lemma ConcurrentFlushClearsFlushing(p: Prompt, q: Prompt)
    ensures var s := Exec([Begin(0, p), Route(0, false, None, false), Hold(0, true), Take, Take]);
      && FlushRuns(s) && !s.box.flushing
      && HoldSection(s.box, false, q) == (s.box, false)
  {
    var run := [Begin(0, p), Route(0, false, None, false), Hold(0, true), Take, Take];
    ExecTakes(run, 0);
    ExecTakes(run, 1);
    ExecTakes(run, 2);
    assert Exec(run[..3]).box == Box([p], false);
    assert Exec(run[..3]).batches == [];
    ExecTakes(run, 3);
    assert Exec(run[..4]).batches == [Batch([p], Running)];
    ExecTakes(run, 4);
    assert run[..5] == run;
    assert Exec(run).batches[0].fate.Running?;
  }

  lemma {:induction false} ExecTakes(steps: seq<Step>, k: nat)
    requires k < |steps|
    ensures Exec(steps[..k + 1]) == Apply(Exec(steps[..k]), steps[k])
  {
    assert steps[..k + 1][..k] == steps[..k];
  }
}
