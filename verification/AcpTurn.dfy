/** The turn latch of acp.go: EncodePrompt takes the latch under the id of the
    session/prompt request, and only the response with that id gives it back.

    The ids come from the counter of the JSON-RPC client, which other requests
    share. The peer may send any response at any time. */
module AcpTurn {
  import JsonRpc

  /** The fields that the mutex guards. No prompt is out when promptId is "". */
  datatype Latch = Latch(promptId: string, sawResult: bool)

  /** What EncodePrompt answers: ErrTurnActive, a frame, or the error of an
      attachment that does not load. */
  datatype Encoded = Refused | Frame(n: nat) | ContentFailed(n: nat)

  /** EncodePrompt, given the number that NextID would return. */
  function EncodeSection(l: Latch, n: nat, contentOk: bool): (Latch, Encoded) {
    if l.promptId != "" then (l, Refused)
    else (Latch(JsonRpc.Decimal(n), false), if contentOk then Frame(n) else ContentFailed(n))
  }

  function Raw(id: JsonRpc.Id): string {
    if id.NoId? then "" else id.raw
  }

  /** parseResponse: true means that the turn ended. */
  function ResponseSection(l: Latch, id: JsonRpc.Id): (Latch, bool) {
    if Raw(id) != l.promptId then (l, false) else (Latch("", true), true)
  }

  class AcpProtocol {
    var promptId: string
    var sawResult: bool

    function State(): Latch
      reads this
    {
      Latch(promptId, sawResult)
    }

    constructor ()
      ensures State() == Latch("", false)
    {
      promptId, sawResult := "", false;
    }

    method TurnActive() returns (active: bool)
      ensures active <==> promptId != ""
    {
      active := promptId != "";
    }

    /** Takes its number from the client unless a turn runs. */
    method EncodePrompt(client: JsonRpc.Client, contentOk: bool) returns (r: Encoded)
      modifies this, client
      ensures (State(), r) == EncodeSection(old(State()), old(client.next) + 1, contentOk)
      ensures client.State() ==
        if r == Refused then old(client.State()) else JsonRpc.NextIdSection(old(client.State())).0
      ensures r == Refused <==> old(promptId) != ""
      ensures r == Refused ==> promptId == old(promptId) && sawResult == old(sawResult)
      ensures r != Refused ==>
        && client.next == old(client.next) + 1 && promptId == JsonRpc.Decimal(client.next) && !sawResult
        && r == if contentOk then Frame(client.next) else ContentFailed(client.next)
    {
      if promptId != "" {
        return Refused;
      }
      sawResult := false;
      var n := client.NextId();
      promptId := JsonRpc.Decimal(n);
      return if contentOk then Frame(n) else ContentFailed(n);
    }

    method ParseResponse(id: JsonRpc.Id) returns (ended: bool)
      modifies this
      ensures (State(), ended) == ResponseSection(old(State()), id)
      ensures ended <==> Raw(id) == old(promptId)
      ensures ended ==> promptId == "" && sawResult
      ensures !ended ==> promptId == old(promptId) && sawResult == old(sawResult)
    {
      if Raw(id) != promptId {
        return false;
      }
      sawResult := true;
      promptId := "";
      return true;
    }
  }

  // ----------------------------------------------------------------- machine

  datatype Mark = Taken(n: nat) | Ended(id: JsonRpc.Id)

  /** `pending` are the numbers of session/prompt frames that are encoded and not yet
      given to the writer, `sent` those of the requests that were written to the
      peer, `prompts` those of session/prompt among them. */
  datatype System = System(latch: Latch, next: nat, pending: set<nat>, sent: set<nat>, prompts: set<nat>, log: seq<Mark>)

  /** Session.Prompt encodes first and writes then. A write fails without stdin or
      with a broken pipe. */
  datatype Step =
    | Prompt(contentOk: bool)
    | Write(n: nat, written: bool)
    | OtherRequest(written: bool)
    | Response(id: JsonRpc.Id)

  const INITIAL := System(Latch("", false), 0, {}, {}, {}, [])

  function Apply(s: System, step: Step): System {
    match step
    case Prompt(contentOk) =>
      var n := s.next + 1;
      var (latch, r) := EncodeSection(s.latch, n, contentOk);
      if r == Refused then s
      else System(latch, n, s.pending + if r.Frame? then {n} else {}, s.sent, s.prompts, s.log + [Taken(n)])
    case Write(n, written) =>
      if n !in s.pending then s
      else if !written then s.(pending := s.pending - {n})
      else s.(pending := s.pending - {n}, sent := s.sent + {n}, prompts := s.prompts + {n})
    case OtherRequest(written) =>
      s.(next := s.next + 1, sent := s.sent + if written then {s.next + 1} else {})
    case Response(id) =>
      // Handle passes on responses with an id only, and an id is not empty.
      if Raw(id) == "" then s
      else
        var (latch, ended) := ResponseSection(s.latch, id);
        if !ended then s.(latch := latch) else s.(latch := latch, log := s.log + [Ended(id)])
  }

  function Exec(steps: seq<Step>): System {
    if steps == [] then INITIAL
    else Apply(Exec(steps[..|steps| - 1]), steps[|steps| - 1])
  }

  /** Taken and Ended marks strictly alternate, each end under the number of the
      prompt before it. */
  ghost predicate Alternates(log: seq<Mark>) {
    && (log != [] ==> log[0].Taken?)
    && (forall i :: 0 < i < |log| ==>
          if log[i].Taken? then log[i - 1].Ended?
          else log[i - 1].Taken? && Raw(log[i].id) == JsonRpc.Decimal(log[i - 1].n))
  }

  /** Each prompt has a number above those before it. */
  ghost predicate Grows(log: seq<Mark>, next: nat) {
    && (forall i :: 0 <= i < |log| && log[i].Taken? ==> log[i].n <= next)
    && (forall i, j :: 0 <= i < j < |log| && log[i].Taken? && log[j].Taken? ==> log[i].n < log[j].n)
  }

  ghost predicate Logged(prompts: set<nat>, log: seq<Mark>) {
    forall n :: n in prompts ==> Taken(n) in log
  }

  ghost predicate LatchShown(latch: Latch, log: seq<Mark>) {
    if latch.promptId != ""
    then log != [] && log[|log| - 1].Taken? && latch == Latch(JsonRpc.Decimal(log[|log| - 1].n), false)
    else if log == [] then latch == Latch("", false) else log[|log| - 1].Ended? && latch.sawResult
  }

  /** Where the numbers of requests are. */
  ghost predicate NumbersFit(s: System) {
    && (forall n :: n in s.sent || n in s.pending ==> n <= s.next)
    && s.prompts <= s.sent && s.pending !! s.sent
    && Logged(s.prompts + s.pending, s.log)
  }

  ghost predicate Inv(s: System) {
    && Alternates(s.log)
    && LatchShown(s.latch, s.log)
    && Grows(s.log, s.next)
    && NumbersFit(s)
  }

  lemma {:induction false} LogByStep(s: System, step: Step)
    requires Alternates(s.log) && LatchShown(s.latch, s.log) && Grows(s.log, s.next)
    ensures var s' := Apply(s, step); Alternates(s'.log) && LatchShown(s'.latch, s'.log) && Grows(s'.log, s'.next)
  {
    var s' := Apply(s, step);
    if s'.log != s.log {
      var mark := s'.log[|s.log|];
      assert s'.log == s.log + [mark];
      AlternatesGrows(s.log, mark);
    }
  }

  lemma {:induction false} NumbersByStep(s: System, step: Step)
    requires NumbersFit(s)
    ensures NumbersFit(Apply(s, step))
  {
    var s' := Apply(s, step);
    if s'.log != s.log {
      var mark := s'.log[|s.log|];
      assert s'.log == s.log + [mark];
      LoggedGrows(s.prompts + s.pending, s.log, mark);
    }
  }

  lemma {:induction false} InvByStep(s: System, step: Step)
    requires Inv(s)
    ensures Inv(Apply(s, step))
  {
    LogByStep(s, step);
    NumbersByStep(s, step);
  }

  lemma {:induction false} AlternatesGrows(log: seq<Mark>, mark: Mark)
    requires Alternates(log)
    requires log == [] ==> mark.Taken?
    requires log != [] && mark.Ended? ==>
      log[|log| - 1].Taken? && Raw(mark.id) == JsonRpc.Decimal(log[|log| - 1].n)
    requires log != [] && mark.Taken? ==> log[|log| - 1].Ended?
    ensures Alternates(log + [mark])
  {
  }

  lemma {:induction false} LoggedGrows(prompts: set<nat>, log: seq<Mark>, mark: Mark)
    requires Logged(prompts, log)
    ensures Logged(prompts, log + [mark])
    ensures mark.Taken? ==> Logged(prompts + {mark.n}, log + [mark])
  {
    assert (log + [mark])[|log|] == mark;
    forall n | n in prompts ensures Taken(n) in log + [mark] {
      assert Taken(n) in log;
    }
  }

  /** In every run, whatever the peer answers, prompts that take the latch and
      turn ends strictly alternate, TurnActive is true exactly between a take
      and its end, and sawResult is true exactly after an end. */
  lemma {:induction false} TurnsAlternate(steps: seq<Step>)
    ensures Inv(Exec(steps))
  {
    if steps != [] {
      TurnsAlternate(steps[..|steps| - 1]);
      InvByStep(Exec(steps[..|steps| - 1]), steps[|steps| - 1]);
    }
  }

  /** A response ends the turn if and only if it carries the very number of the
      prompt that took the latch; the response to any other request, and the
      same digits as a string, leave the turn as it is. */
  lemma {:induction false} OnlyThePromptResponseEnds(steps: seq<Step>, id: JsonRpc.Id)
    requires Exec(steps).latch.promptId != "" && Exec(steps).log != []
    requires id.TextId? ==> id.raw != "" && id.raw[0] == '"'
    ensures var s := Exec(steps);
      && s.log[|s.log| - 1].Taken?
      && (Exec(steps + [Response(id)]).latch.promptId == "" <==>
            id == JsonRpc.NumberId(s.log[|s.log| - 1].n))
  {
    TurnsAlternate(steps);
    assert (steps + [Response(id)])[..|steps|] == steps;
    var s := Exec(steps);
    if id.TextId? {
      DecimalStartsWithDigit(s.log[|s.log| - 1].n);
    }
  }

  lemma {:induction false} DecimalStartsWithDigit(n: nat)
    ensures JsonRpc.Decimal(n)[0] != '"'
  {
    if n >= 10 {
      DecimalStartsWithDigit(n / 10);
    }
  }

  // ------------------------------------------------------- a prompt that is not sent

  /** A session/prompt request is out: written, and not answered yet. */
  ghost predicate PromptOut(s: System) {
    s.log != [] && s.log[|s.log| - 1].Taken? && s.log[|s.log| - 1].n in s.prompts
  }

  /** The peer answers only requests that were written to it. */
  ghost predicate AnswersRequests(steps: seq<Step>, more: seq<Step>) {
    forall k :: 0 <= k < |more| && more[k].Response? ==>
      exists n :: n in Exec(steps + more[..k]).sent && more[k].id == JsonRpc.NumberId(n)
  }

  lemma {:induction false} AnswersPrefix(steps: seq<Step>, more: seq<Step>, k: nat)
    requires AnswersRequests(steps, more) && k <= |more|
    ensures AnswersRequests(steps, more[..k])
  {
    forall j | 0 <= j < k && more[..k][j].Response?
      ensures exists n :: n in Exec(steps + more[..k][..j]).sent && more[..k][j].id == JsonRpc.NumberId(n)
    {
      assert more[..k][..j] == more[..j];
    }
  }

  lemma {:induction false} StuckForever(steps: seq<Step>, more: seq<Step>, n: nat)
    requires Exec(steps).latch.promptId == JsonRpc.Decimal(n)
    requires n !in Exec(steps).sent && n !in Exec(steps).pending && n <= Exec(steps).next
    requires AnswersRequests(steps, more)
    ensures var s := Exec(steps + more); s.latch == Exec(steps).latch && n !in s.sent && n !in s.pending
  {
    if more == [] {
      assert steps + more == steps;
    } else {
      var k := |more| - 1;
      var before := steps + more[..k];
      assert (steps + more)[..|steps + more| - 1] == before;
      AnswersPrefix(steps, more, k);
      StuckForever(steps, more[..k], n);
      NextGrows(steps, more[..k]);
      StuckByStep(Exec(before), more[k], n);
      NotPendingByStep(Exec(before), more[k], n);
    }
  }

  /** The steps between the encoding of prompt n and its write. */
  ghost predicate Between(steps: seq<Step>, mid: seq<Step>, n: nat) {
    AnswersRequests(steps, mid) && forall k :: 0 <= k < |mid| ==> !mid[k].Write? || mid[k].n != n
  }

  /** Prompt n has the latch and is not written; it is pending if it loaded. */
  ghost predicate Held(s: System, n: nat, loaded: bool) {
    && s.latch == Latch(JsonRpc.Decimal(n), false) && n !in s.sent && n <= s.next
    && s.log != [] && s.log[|s.log| - 1] == Taken(n)
    && (n in s.pending <==> loaded)
  }

  lemma {:induction false} HeldAtFirst(steps: seq<Step>, contentOk: bool)
    requires Exec(steps).latch.promptId == ""
    ensures Held(Exec(steps + [Prompt(contentOk)]), Exec(steps).next + 1, contentOk)
  {
    TurnsAlternate(steps);
    assert (steps + [Prompt(contentOk)])[..|steps|] == steps;
  }

  /** A prompt that took the latch keeps it until its write; then it is pending
      exactly if its content loaded. */
  lemma {:induction false} HeldUntilWrite(start: seq<Step>, mid: seq<Step>, n: nat, loaded: bool)
    requires Held(Exec(start), n, loaded) && Between(start, mid, n)
    ensures Held(Exec(start + mid), n, loaded)
  {
    if mid == [] {
      assert start + mid == start;
    } else {
      var k := |mid| - 1;
      assert (start + mid)[..|start + mid| - 1] == start + mid[..k];
      AnswersPrefix(start, mid, k);
      HeldUntilWrite(start, mid[..k], n, loaded);
      StuckByStep(Exec(start + mid[..k]), mid[k], n);
      HeldByStep(Exec(start + mid[..k]), mid[k], n, loaded);
    }
  }

  /** TurnActive is meant to say that a session/prompt waits for its response. When
      a prompt has been encoded and its frame given to the writer, whatever went on
      between, that is so if and only if its content loaded and the write
      succeeded: EncodePrompt takes the latch before both. */
  lemma {:induction false} LatchIsExactIffWritten(steps: seq<Step>, contentOk: bool, mid: seq<Step>, written: bool)
    requires Exec(steps).latch.promptId == ""
    requires Between(steps + [Prompt(contentOk)], mid, Exec(steps).next + 1)
    ensures var s := Exec(steps + [Prompt(contentOk)] + mid + [Write(Exec(steps).next + 1, written)]);
      (s.latch.promptId != "" <==> PromptOut(s)) <==> contentOk && written
  {
    var before, n := steps + [Prompt(contentOk)] + mid, Exec(steps).next + 1;
    HeldAtFirst(steps, contentOk);
    HeldUntilWrite(steps + [Prompt(contentOk)], mid, n, contentOk);
    TurnsAlternate(before);
    assert (before + [Write(n, written)])[..|before|] == before;
  }

  /** A prompt whose content does not load, or whose frame is not written, leaves the
      latch shut for good: every later prompt is refused, unless the peer answers a
      request it never got. */
  lemma {:induction false} FailedPromptSticks(steps: seq<Step>, contentOk: bool, mid: seq<Step>, written: bool, more: seq<Step>)
    requires Exec(steps).latch.promptId == "" && !(contentOk && written)
    requires Between(steps + [Prompt(contentOk)], mid, Exec(steps).next + 1)
    requires AnswersRequests(steps + [Prompt(contentOk)] + mid + [Write(Exec(steps).next + 1, written)], more)
    ensures var n := Exec(steps).next + 1;
      var s := Exec(steps + [Prompt(contentOk)] + mid + [Write(n, written)] + more);
      && s.latch == Latch(JsonRpc.Decimal(n), false)
      && forall ok :: Apply(s, Prompt(ok)) == s
  {
    var before, n := steps + [Prompt(contentOk)] + mid, Exec(steps).next + 1;
    var start := before + [Write(n, written)];
    HeldAtFirst(steps, contentOk);
    HeldUntilWrite(steps + [Prompt(contentOk)], mid, n, contentOk);
    assert start[..|before|] == before;
    StuckForever(start, more, n);
  }

  lemma {:induction false} HeldByStep(s: System, step: Step, n: nat, loaded: bool)
    requires Held(s, n, loaded) && !(step.Write? && step.n == n)
    requires Apply(s, step).latch == s.latch && n !in Apply(s, step).sent
    ensures Held(Apply(s, step), n, loaded)
  {
  }

  lemma {:induction false} StuckByStep(s: System, step: Step, n: nat)
    requires s.latch.promptId == JsonRpc.Decimal(n) && n !in s.sent && n <= s.next
    requires step.Response? ==> exists m :: m in s.sent && step.id == JsonRpc.NumberId(m)
    requires step.Write? && step.n == n ==> n !in s.pending
    ensures var s' := Apply(s, step); s'.latch == s.latch && n !in s'.sent
  {
    if step.Response? {
      var m :| m in s.sent && step.id == JsonRpc.NumberId(m);
      if JsonRpc.Decimal(m) == JsonRpc.Decimal(n) {
        JsonRpc.DecimalInjective(m, n);
      }
    }
  }

  lemma {:induction false} NotPendingByStep(s: System, step: Step, n: nat)
    requires s.latch.promptId != "" && n !in s.pending
    ensures n !in Apply(s, step).pending
  {
  }

  lemma {:induction false} NextGrows(steps: seq<Step>, more: seq<Step>)
    ensures Exec(steps).next <= Exec(steps + more).next
  {
    if more == [] {
      assert steps + more == steps;
    } else {
      assert (steps + more)[..|steps + more| - 1] == steps + more[..|more| - 1];
      NextGrows(steps, more[..|more| - 1]);
    }
  }
}
