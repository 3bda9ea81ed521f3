/** The JSON-RPC 2.0 client of internal/jsonrpc/jsonrpc.go: callers, the read
    loop and Fail race over a map of waiters and one-slot channels.

    Class Client has one method per mutex section; the same sections are steps
    of a machine with any number of calls and handlers. Frames arrive decoded;
    a write, a timeout and the end of a context answer freely. */
module JsonRpc {
  import opened Collections

  // --------------------------------------------------------------------- ids

  /** An id in its wire form: absent, a string (with its decoded text), or any
      other JSON value, in practice a number. */
  datatype Id = NoId | TextId(raw: string, text: string) | RawId(raw: string)

  function Digit(d: nat): char
    requires d < 10
  {
    "0123456789"[d]
  }

  function Decimal(n: nat): (s: string)
    ensures s != []
  {
    if n < 10 then [Digit(n)] else Decimal(n / 10) + [Digit(n % 10)]
  }

  function NumberId(n: nat): Id {
    RawId(Decimal(n))
  }

  /** The canonical waiter key. */
  function Key(id: Id): string {
    match id
    case NoId => ""
    case TextId(_, text) => "s:" + text
    case RawId(raw) => "n:" + raw
  }

  lemma {:induction false} DecimalInjective(m: nat, n: nat)
    requires Decimal(m) == Decimal(n)
    ensures m == n
  {
    var a, b := Decimal(m), Decimal(n);
    assert a[|a| - 1] == Digit(m % 10) && b[|b| - 1] == Digit(n % 10);
    if m >= 10 && n >= 10 {
      assert a[..|a| - 1] == Decimal(m / 10) && b[..|b| - 1] == Decimal(n / 10);
      DecimalInjective(m / 10, n / 10);
    }
  }

  /** Only the number that the client wrote opens its waiter: neither another
      number nor the same digits as a string. */
  lemma {:induction false} KeyOpensOwnNumberOnly(id: Id, n: nat)
    ensures Key(id) == Key(NumberId(n)) <==> id == NumberId(n)
  {
    var key := Key(NumberId(n));
    assert key[0] == 'n' && key[2..] == Decimal(n);
    match id
    case NoId =>
    case TextId(_, text) => assert Key(id)[0] == 's';
    case RawId(raw) => assert Key(id)[2..] == raw;
  }

  lemma {:induction false} NumberKeysDiffer(m: nat, n: nat)
    ensures Key(NumberId(m)) == Key(NumberId(n)) <==> m == n
  {
    KeyOpensOwnNumberOnly(NumberId(m), n);
    if Decimal(m) == Decimal(n) {
      DecimalInjective(m, n);
    }
  }

  // ------------------------------------------------------------------ frames

  datatype Kind = KindUnknown | KindResponse | KindRequest | KindNotification

  datatype Message = Message(id: Id, methodName: string, err: Option<string>, result: string)

  /** What Handle makes of a frame; None is a frame that does not decode. */
  function Classify(frame: Option<Message>): Kind {
    match frame
    case None => KindUnknown
    case Some(m) =>
      if m.methodName != "" then (if m.id.NoId? then KindNotification else KindRequest)
      else if m.id.NoId? then KindUnknown else KindResponse
  }

  // ---------------------------------------------------------------- sections

  /** What the mutex guards. A waiter is the name of a channel. */
  datatype ClientState = ClientState(next: nat, waiters: map<string, nat>, dead: Option<string>)

  function NextIdSection(c: ClientState): (ClientState, nat) {
    (c.(next := c.next + 1), c.next + 1)
  }

  /** The section of expect, which registers the channel `ch` that it makes; it
      refuses when the transport is dead. */
  function ExpectSection(c: ClientState, id: Id, ch: nat): (ClientState, bool) {
    if c.dead.Some? then (c, false) else (c.(waiters := c.waiters[Key(id) := ch]), true)
  }

  function ForgetSection(c: ClientState, id: Id): ClientState {
    c.(waiters := c.waiters - {Key(id)})
  }

  /** The section of Handle for a response. */
  function RouteSection(c: ClientState, id: Id): (ClientState, Option<nat>) {
    if Key(id) in c.waiters
    then (c.(waiters := c.waiters - {Key(id)}), Some(c.waiters[Key(id)]))
    else (c, None)
  }

  /** The section of Fail: the waiters to close, or None when already dead. */
  function FailSection(c: ClientState, err: string): (ClientState, Option<map<string, nat>>) {
    if c.dead.Some? then (c, None)
    else (c.(dead := Some(err), waiters := map[]), Some(c.waiters))
  }

  class Client {
    var next: nat
    var waiters: map<string, nat>
    var dead: Option<string>

    function State(): ClientState
      reads this
    {
      ClientState(next, waiters, dead)
    }

    constructor ()
      ensures State() == ClientState(0, map[], None)
    {
      next, waiters, dead := 0, map[], None;
    }

    method NextId() returns (n: nat)
      modifies this
      ensures (State(), n) == NextIdSection(old(State()))
      ensures n == next == old(next) + 1 && waiters == old(waiters) && dead == old(dead)
    {
      next := next + 1;
      n := next;
    }

    method Expect(id: Id, ch: nat) returns (registered: bool)
      modifies this
      ensures (State(), registered) == ExpectSection(old(State()), id, ch)
      ensures registered <==> old(dead) == None
      ensures waiters == if old(dead) == None then old(waiters)[Key(id) := ch] else old(waiters)
      ensures next == old(next) && dead == old(dead)
    {
      if dead.Some? {
        return false;
      }
      waiters := waiters[Key(id) := ch];
      return true;
    }

    method Forget(id: Id)
      modifies this
      ensures State() == ForgetSection(old(State()), id)
      ensures waiters == old(waiters) - {Key(id)} && next == old(next) && dead == old(dead)
    {
      waiters := waiters - {Key(id)};
    }

    /** Handle up to the delivery: the kind of the frame, and the channel that
        the caller of the section must fill with it. */
    method Handle(frame: Option<Message>) returns (kind: Kind, ch: Option<nat>)
      modifies this
      ensures kind == Classify(frame)
      ensures kind == KindResponse ==> (State(), ch) == RouteSection(old(State()), frame.value.id)
      ensures kind != KindResponse ==> State() == old(State()) && ch == None
      ensures kind == KindResponse <==> frame.Some? && frame.value.methodName == "" && !frame.value.id.NoId?
      ensures kind == KindRequest <==> frame.Some? && frame.value.methodName != "" && !frame.value.id.NoId?
      ensures kind == KindNotification <==> frame.Some? && frame.value.methodName != "" && frame.value.id.NoId?
      ensures kind == KindResponse && Key(frame.value.id) in old(waiters) ==>
        ch == Some(old(waiters)[Key(frame.value.id)]) && waiters == old(waiters) - {Key(frame.value.id)}
      ensures !(kind == KindResponse && Key(frame.value.id) in old(waiters)) ==> ch == None && waiters == old(waiters)
      ensures next == old(next) && dead == old(dead)
    {
      if frame.None? {
        return KindUnknown, None;
      }
      var m := frame.value;
      if m.methodName != "" {
        return if m.id.NoId? then KindNotification else KindRequest, None;
      }
      if m.id.NoId? {
        return KindUnknown, None;
      }
      var key := Key(m.id);
      if key in waiters {
        ch := Some(waiters[key]);
        waiters := waiters - {key};
      } else {
        ch := None;
      }
      kind := KindResponse;
    }

    method Fail(err: string) returns (release: Option<map<string, nat>>)
      modifies this
      ensures (State(), release) == FailSection(old(State()), err)
      ensures next == old(next)
      ensures old(dead).Some? ==> release == None && dead == old(dead) && waiters == old(waiters)
      ensures old(dead) == None ==> release == Some(old(waiters)) && dead == Some(err) && waiters == map[]
    {
      if dead.Some? {
        return None;
      }
      dead := Some(err);
      release := Some(waiters);
      waiters := map[];
    }
  }

  // ----------------------------------------------------------------- machine

  /** A one-slot channel. `fills` and `closes` count what was ever done to it. */
  datatype Chan = Chan(slot: seq<Message>, fills: nat, closes: nat)

  const MADE := Chan([], 0, 0)

  datatype Outcome = Reply(m: Message) | TransportDead | SendFailed | GaveUp

  /** The life of one call: it has its id, waits on its channel, is about to run
      the deferred forget, has returned. */
  datatype CallState = Numbered | Waiting | Leaving(outcome: Outcome) | Returned(outcome: Outcome)

  datatype Delivery = Delivery(ch: nat, m: Message)

  /** Calls are named by the number of their id, and so is the channel that a
      call makes. `handlers` are deliveries between the section of Handle and
      the send; `failing` are the waiters that Fail took and has yet to close. */
  datatype System = System(
    client: ClientState,
    chans: map<nat, Chan>,
    calls: map<nat, CallState>,
    handlers: map<nat, Delivery>,
    failing: map<string, nat>,
    panicked: bool,
    blocked: bool)

  datatype Step =
    | NewCall
    | TakeId
    | Expect(n: nat)
    | WriteFails(n: nat)
    | GiveUp(n: nat)
    | Receive(n: nat)
    | SeeClosed(n: nat)
    | Forget(n: nat)
    | Handle(h: nat, frame: Option<Message>)
    | Deliver(h: nat)
    | Fail(err: string)
    | CloseOne(key: string)

  const INITIAL := System(ClientState(0, map[], None), map[], map[], map[], map[], false, false)

  predicate IsWaiting(s: System, n: nat) {
    n in s.calls && s.calls[n].Waiting? && n in s.chans
  }

  /** `ch <- m`: a send on a closed channel panics, on a full one it blocks. */
  function SendOn(s: System, d: Delivery): System
    requires d.ch in s.chans
  {
    var chan := s.chans[d.ch];
    if chan.closes > 0 then s.(panicked := true)
    else if chan.slot != [] then s.(blocked := true)
    else s.(chans := s.chans[d.ch := chan.(slot := [d.m], fills := chan.fills + 1)])
  }

  /** `close(ch)`: closing a closed channel panics. */
  function CloseChan(s: System, ch: nat): System
    requires ch in s.chans
  {
    var chan := s.chans[ch];
    if chan.closes > 0 then s.(panicked := true)
    else s.(chans := s.chans[ch := chan.(closes := chan.closes + 1)])
  }

  function Apply(s: System, step: Step): System {
    match step
    case NewCall =>
      var (client, n) := NextIdSection(s.client);
      s.(client := client, calls := s.calls[n := Numbered])
    case TakeId => s.(client := NextIdSection(s.client).0)
    case Expect(n) =>
      if n !in s.calls || s.calls[n] != Numbered then s
      else
        var (client, registered) := ExpectSection(s.client, NumberId(n), n);
        if !registered then s.(calls := s.calls[n := Returned(TransportDead)])
        else s.(client := client, chans := s.chans[n := MADE], calls := s.calls[n := Waiting])
    case WriteFails(n) =>
      if !IsWaiting(s, n) then s else s.(calls := s.calls[n := Leaving(SendFailed)])
    case GiveUp(n) =>
      if !IsWaiting(s, n) then s else s.(calls := s.calls[n := Leaving(GaveUp)])
    case Receive(n) =>
      if !IsWaiting(s, n) || s.chans[n].slot == [] then s
      else
        var chan := s.chans[n];
        s.(chans := s.chans[n := chan.(slot := chan.slot[1..])],
           calls := s.calls[n := Leaving(Reply(chan.slot[0]))])
    case SeeClosed(n) =>
      if !IsWaiting(s, n) || s.chans[n].slot != [] || s.chans[n].closes == 0 then s
      else s.(calls := s.calls[n := Leaving(TransportDead)])
    case Forget(n) =>
      if n !in s.calls || !s.calls[n].Leaving? then s
      else s.(client := ForgetSection(s.client, NumberId(n)),
              calls := s.calls[n := Returned(s.calls[n].outcome)])
    case Handle(h, frame) =>
      if h in s.handlers || Classify(frame) != KindResponse then s
      else
        var (client, ch) := RouteSection(s.client, frame.value.id);
        if ch == None then s
        else s.(client := client, handlers := s.handlers[h := Delivery(ch.value, frame.value)])
    case Deliver(h) =>
      if h !in s.handlers || s.handlers[h].ch !in s.chans then s
      else SendOn(s, s.handlers[h]).(handlers := s.handlers - {h})
    case Fail(err) =>
      var (client, release) := FailSection(s.client, err);
      if release == None then s
      else s.(client := client, failing := release.value)
    case CloseOne(key) =>
      if key !in s.failing || s.failing[key] !in s.chans then s
      else CloseChan(s, s.failing[key]).(failing := s.failing - {key})
  }

  function Exec(steps: seq<Step>): System {
    if steps == [] then INITIAL
    else Apply(Exec(steps[..|steps| - 1]), steps[|steps| - 1])
  }

  // -------------------------------------------------------------- invariants

  function WaiterKey(n: nat): string {
    Key(NumberId(n))
  }

  /** Numbers come from the counter; every waiting call has a channel, and only
      calls past expect have one. */
  ghost predicate Numbers(next: nat, calls: map<nat, CallState>, chans: map<nat, Chan>) {
    && (forall n :: n in calls ==> n <= next)
    && (forall n :: n in chans ==> n in calls && calls[n] != Numbered)
    && (forall n :: n in calls && calls[n] == Waiting ==> n in chans)
  }

  /** The registered channels are as made, under the key of their call. */
  ghost predicate Registered(waiters: map<string, nat>, chans: map<nat, Chan>) {
    forall k :: k in waiters ==> waiters[k] in chans && chans[waiters[k]] == MADE && k == WaiterKey(waiters[k])
  }

  /** Waiters belong to calls that still run. */
  ghost predicate Running(waiters: map<string, nat>, calls: map<nat, CallState>) {
    forall k :: k in waiters ==>
      waiters[k] in calls && (calls[waiters[k]].Waiting? || calls[waiters[k]].Leaving?)
  }

  /** A dead client has no waiter, and only a dead one has waiters to close. */
  ghost predicate DeadOrAlive(client: ClientState, failing: map<string, nat>) {
    if client.dead.Some? then client.waiters == map[] else failing == map[]
  }

  /** Handlers hold channels that are as made, each its own. */
  ghost predicate Delivering(handlers: map<nat, Delivery>, chans: map<nat, Chan>) {
    && (forall h :: h in handlers ==>
          && handlers[h].ch in chans
          && chans[handlers[h].ch] == MADE
          && Key(handlers[h].m.id) == WaiterKey(handlers[h].ch))
    && (forall h, i :: h in handlers && i in handlers && handlers[h].ch == handlers[i].ch ==> h == i)
  }

  /** No handler holds a channel of `waiters`. */
  ghost predicate Apart(handlers: map<nat, Delivery>, waiters: map<string, nat>) {
    forall h :: h in handlers ==> Key(handlers[h].m.id) !in waiters
  }

  /** Each channel is filled once or closed once, never both and never twice, and
      only with a reply to its call. */
  ghost predicate FilledOrClosed(chans: map<nat, Chan>) {
    forall n :: n in chans ==>
      && chans[n].fills + chans[n].closes <= 1
      && |chans[n].slot| <= chans[n].fills
      && (chans[n].slot != [] ==> Key(chans[n].slot[0].id) == WaiterKey(n))
  }

  /** A reply carries the id of the call that gets it. */
  ghost predicate OwnReplies(calls: map<nat, CallState>) {
    forall n :: n in calls && (calls[n].Leaving? || calls[n].Returned?) && calls[n].outcome.Reply? ==>
      Key(calls[n].outcome.m.id) == WaiterKey(n)
  }

  ghost predicate InHandler(handlers: map<nat, Delivery>, n: nat) {
    exists h :: h in handlers && handlers[h].ch == n
  }

  /** The channel of every waiting call will still be filled or closed by
      something, or has been. */
  ghost predicate AllServed(s: System) {
    forall n :: n in s.calls && s.calls[n] == Waiting && n in s.chans ==>
      || WaiterKey(n) in s.client.waiters
      || WaiterKey(n) in s.failing
      || InHandler(s.handlers, n)
      || s.chans[n].slot != []
      || s.chans[n].closes == 1
  }

  ghost predicate Safe(s: System) {
    && Numbers(s.client.next, s.calls, s.chans)
    && Registered(s.client.waiters, s.chans) && Registered(s.failing, s.chans)
    && Running(s.client.waiters, s.calls)
    && DeadOrAlive(s.client, s.failing)
    && Delivering(s.handlers, s.chans)
    && Apart(s.handlers, s.client.waiters) && Apart(s.handlers, s.failing)
    && FilledOrClosed(s.chans)
    && OwnReplies(s.calls)
    && !s.panicked && !s.blocked
  }

  // --------------------------------------------------- every step keeps them

  lemma {:induction false} RegisterOne(waiters: map<string, nat>, calls: map<nat, CallState>,
                                       chans: map<nat, Chan>, n: nat)
    requires Registered(waiters, chans) && Running(waiters, calls) && n !in chans
    ensures Registered(waiters[WaiterKey(n) := n], chans[n := MADE])
    ensures Running(waiters[WaiterKey(n) := n], calls[n := Waiting])
  {
  }

  lemma {:induction false} RegisterApart(handlers: map<nat, Delivery>, waiters: map<string, nat>,
                                         chans: map<nat, Chan>, n: nat)
    requires Delivering(handlers, chans) && Apart(handlers, waiters) && n !in chans
    ensures Delivering(handlers, chans[n := MADE])
    ensures Apart(handlers, waiters[WaiterKey(n) := n])
  {
    forall h | h in handlers ensures Key(handlers[h].m.id) != WaiterKey(n) {
      NumberKeysDiffer(handlers[h].ch, n);
    }
  }

  lemma {:induction false} SafeByExpect(s: System, n: nat)
    requires Safe(s)
    ensures Safe(Apply(s, Expect(n)))
  {
    if n in s.calls && s.calls[n] == Numbered && s.client.dead.None? {
      RegisterOne(s.client.waiters, s.calls, s.chans, n);
      RegisterApart(s.handlers, s.client.waiters, s.chans, n);
    }
  }

  /** Taking the message of a filled channel leaves a channel that nobody holds. */
  lemma {:induction false} EmptiedIsFree(s: System, n: nat)
    requires Safe(s) && n in s.chans && s.chans[n].slot != []
    ensures var chans := s.chans[n := s.chans[n].(slot := s.chans[n].slot[1..])];
      && Registered(s.client.waiters, chans) && Registered(s.failing, chans) && Delivering(s.handlers, chans)
      && FilledOrClosed(chans)
  {
  }

  lemma {:induction false} SafeByReceive(s: System, n: nat)
    requires Safe(s)
    ensures Safe(Apply(s, Receive(n)))
  {
    if IsWaiting(s, n) && s.chans[n].slot != [] {
      EmptiedIsFree(s, n);
    }
  }

  lemma {:induction false} SafeByHandle(s: System, h: nat, frame: Option<Message>)
    requires Safe(s)
    ensures Safe(Apply(s, Handle(h, frame)))
  {
  }

  /** The channel of a handler is filled: no other one holds it. */
  lemma {:induction false} FillsItsOwn(handlers: map<nat, Delivery>, chans: map<nat, Chan>, h: nat)
    requires Delivering(handlers, chans) && h in handlers && FilledOrClosed(chans)
    ensures var d := handlers[h];
      var chans' := chans[d.ch := Chan([d.m], 1, 0)];
      && Delivering(handlers - {h}, chans') && FilledOrClosed(chans')
  {
  }

  lemma {:induction false} FillsNoWaiter(handlers: map<nat, Delivery>, chans: map<nat, Chan>, waiters: map<string, nat>, h: nat)
    requires Delivering(handlers, chans) && h in handlers && Registered(waiters, chans) && Apart(handlers, waiters)
    ensures Registered(waiters, chans[handlers[h].ch := Chan([handlers[h].m], 1, 0)]) && Apart(handlers - {h}, waiters)
  {
  }

  lemma {:induction false} SafeByDeliver(s: System, h: nat)
    requires Safe(s)
    ensures Safe(Apply(s, Deliver(h)))
  {
    if h in s.handlers {
      var d := s.handlers[h];
      FillsItsOwn(s.handlers, s.chans, h);
      FillsNoWaiter(s.handlers, s.chans, s.client.waiters, h);
      FillsNoWaiter(s.handlers, s.chans, s.failing, h);
      SafeByChannel(s, d.ch, Chan([d.m], 1, 0), s.handlers - {h}, s.failing);
      Delivered(s, h);
    }
  }

  lemma {:induction false} Delivered(s: System, h: nat)
    requires h in s.handlers && s.handlers[h].ch in s.chans && s.chans[s.handlers[h].ch] == MADE
    ensures var d := s.handlers[h];
      Apply(s, Deliver(h)) == s.(chans := s.chans[d.ch := Chan([d.m], 1, 0)], handlers := s.handlers - {h})
  {
  }

  lemma {:induction false} SafeByChannel(s: System, ch: nat, chan: Chan, handlers: map<nat, Delivery>, failing: map<string, nat>)
    requires Safe(s) && ch in s.chans && (s.client.dead == None ==> failing == map[])
    requires var chans := s.chans[ch := chan];
      && Registered(s.client.waiters, chans) && Registered(failing, chans) && Delivering(handlers, chans)
      && Apart(handlers, s.client.waiters) && Apart(handlers, failing) && FilledOrClosed(chans)
    ensures Safe(s.(chans := s.chans[ch := chan], handlers := handlers, failing := failing))
  {
  }

  /** The channel of a failing waiter is closed: no handler and no other waiter holds it. */
  lemma {:induction false} ClosesItsOwn(failing: map<string, nat>, chans: map<nat, Chan>, handlers: map<nat, Delivery>, key: string)
    requires Registered(failing, chans) && key in failing && FilledOrClosed(chans)
    requires Delivering(handlers, chans) && Apart(handlers, failing)
    ensures var chans' := chans[failing[key] := Chan([], 0, 1)];
      && Registered(failing - {key}, chans') && FilledOrClosed(chans')
      && Delivering(handlers, chans') && Apart(handlers, failing - {key})
  {
  }

  lemma {:induction false} SafeByCloseOne(s: System, key: string)
    requires Safe(s)
    ensures Safe(Apply(s, CloseOne(key)))
  {
    if key in s.failing {
      ClosesItsOwn(s.failing, s.chans, s.handlers, key);
      assert s.client.waiters == map[];
      SafeByChannel(s, s.failing[key], Chan([], 0, 1), s.handlers, s.failing - {key});
    }
  }

  lemma {:induction false} SafeByEnding(s: System, step: Step)
    requires Safe(s) && (step.WriteFails? || step.GiveUp? || step.SeeClosed?)
    ensures Safe(Apply(s, step))
  {
  }

  lemma {:induction false} SafeByOther(s: System, step: Step)
    requires Safe(s) && (step.NewCall? || step.TakeId? || step.Forget? || step.Fail?)
    ensures Safe(Apply(s, step))
  {
  }

  lemma {:induction false} ServedByExpect(s: System, n: nat)
    requires Safe(s) && AllServed(s)
    ensures AllServed(Apply(s, Expect(n)))
  {
  }

  lemma {:induction false} ServedByForget(s: System, n: nat)
    requires Safe(s) && AllServed(s)
    ensures AllServed(Apply(s, Forget(n)))
  {
    forall m | m in s.calls && s.calls[m] == Waiting && m != n ensures WaiterKey(m) != WaiterKey(n) {
      NumberKeysDiffer(m, n);
    }
  }

  lemma {:induction false} ServedByHandle(s: System, h: nat, frame: Option<Message>)
    requires Safe(s) && AllServed(s)
    ensures AllServed(Apply(s, Handle(h, frame)))
  {
    var s' := Apply(s, Handle(h, frame));
    if s' != s {
      var key := Key(frame.value.id);
      assert s'.handlers[h].ch == s.client.waiters[key];
      forall m | m in s.calls && s.calls[m] == Waiting && WaiterKey(m) == key
        ensures InHandler(s'.handlers, m)
      {
        NumberKeysDiffer(m, s.client.waiters[key]);
      }
      forall m | InHandler(s.handlers, m) ensures InHandler(s'.handlers, m) {
        var i :| i in s.handlers && s.handlers[i].ch == m;
        assert i in s'.handlers && s'.handlers[i].ch == m;
      }
    }
  }

  lemma {:induction false} OthersStayInHandlers(handlers: map<nat, Delivery>, h: nat)
    requires h in handlers
    ensures forall m :: InHandler(handlers, m) && m != handlers[h].ch ==> InHandler(handlers - {h}, m)
  {
    forall m | InHandler(handlers, m) && m != handlers[h].ch ensures InHandler(handlers - {h}, m) {
      var i :| i in handlers && handlers[i].ch == m;
      assert i in handlers - {h};
    }
  }

  lemma {:induction false} ServedByDeliver(s: System, h: nat)
    requires Safe(s) && AllServed(s)
    ensures AllServed(Apply(s, Deliver(h)))
  {
    if h in s.handlers {
      var d := s.handlers[h];
      OthersStayInHandlers(s.handlers, h);
      ServedByFill(s, s.chans[d.ch := Chan([d.m], 1, 0)], s.handlers - {h}, d.ch);
      assert s.chans[d.ch] == MADE;
    }
  }

  lemma {:induction false} ServedByFill(s: System, chans: map<nat, Chan>, handlers: map<nat, Delivery>, ch: nat)
    requires AllServed(s) && chans.Keys == s.chans.Keys && ch in chans && chans[ch].slot != []
    requires forall m :: m in chans && m != ch ==> chans[m] == s.chans[m]
    requires forall m :: InHandler(s.handlers, m) && m != ch ==> InHandler(handlers, m)
    ensures AllServed(s.(chans := chans, handlers := handlers))
  {
  }

  lemma {:induction false} ServedByCloseOne(s: System, key: string)
    requires Safe(s) && AllServed(s)
    ensures AllServed(Apply(s, CloseOne(key)))
  {
    if key in s.failing {
      var ch, s' := s.failing[key], Apply(s, CloseOne(key));
      assert s'.chans[ch].closes == 1 && s'.failing == s.failing - {key};
      forall m | m in s.calls && s.calls[m] == Waiting && m != ch ensures WaiterKey(m) != key {
        NumberKeysDiffer(m, ch);
      }
    }
  }

  lemma {:induction false} ServedByOther(s: System, step: Step)
    requires Safe(s) && AllServed(s)
    requires !step.Expect? && !step.Forget? && !step.Handle? && !step.Deliver? && !step.CloseOne?
    ensures AllServed(Apply(s, step))
  {
  }

  lemma {:induction false} InvByStep(s: System, step: Step)
    requires Safe(s) && AllServed(s)
    ensures Safe(Apply(s, step)) && AllServed(Apply(s, step))
  {
    match step
    case Expect(n) => SafeByExpect(s, n); ServedByExpect(s, n);
    case Receive(n) => SafeByReceive(s, n); ServedByOther(s, step);
    case Forget(n) => SafeByOther(s, step); ServedByForget(s, n);
    case Handle(h, frame) => SafeByHandle(s, h, frame); ServedByHandle(s, h, frame);
    case Deliver(h) => SafeByDeliver(s, h); ServedByDeliver(s, h);
    case CloseOne(key) => SafeByCloseOne(s, key); ServedByCloseOne(s, key);
    case WriteFails(_) => SafeByEnding(s, step); ServedByOther(s, step);
    case GiveUp(_) => SafeByEnding(s, step); ServedByOther(s, step);
    case SeeClosed(_) => SafeByEnding(s, step); ServedByOther(s, step);
    case _ => SafeByOther(s, step); ServedByOther(s, step);
  }

  lemma {:induction false} AlwaysInv(steps: seq<Step>)
    ensures Safe(Exec(steps)) && AllServed(Exec(steps))
  {
    if steps != [] {
      AlwaysInv(steps[..|steps| - 1]);
      InvByStep(Exec(steps[..|steps| - 1]), steps[|steps| - 1]);
    }
  }

  // ---------------------------------------------------------------- theorems

  /** In every run no send panics or blocks, no close panics, and each channel is
      filled once, or closed once, or neither. */
  lemma {:induction false} ChannelsUsedOnce(steps: seq<Step>)
    ensures var s := Exec(steps);
      && !s.panicked && !s.blocked
      && forall n :: n in s.chans ==> s.chans[n].fills + s.chans[n].closes <= 1
  {
    AlwaysInv(steps);
  }

  /** The number of a new call was never given to another one, and a reply that
      a call got carries its number and not that of any other call. */
  lemma {:induction false} RepliesMatch(steps: seq<Step>, n: nat, m: nat)
    requires var calls := Exec(steps).calls;
      && n in calls && calls[n].Returned? && calls[n].outcome.Reply?
      && m in calls && calls[m].Returned? && calls[m].outcome.Reply?
    ensures var calls := Exec(steps).calls;
      && calls[n].outcome.m.id == NumberId(n)
      && (n != m ==> calls[n].outcome.m.id != calls[m].outcome.m.id)
    ensures Exec(steps).client.next + 1 !in Exec(steps).calls
  {
    AlwaysInv(steps);
    var calls := Exec(steps).calls;
    KeyOpensOwnNumberOnly(calls[n].outcome.m.id, n);
    KeyOpensOwnNumberOnly(calls[m].outcome.m.id, m);
    NumberKeysDiffer(n, m);
  }

  /** `waiters` holds the keys of calls that still run; a call that returned has
      left nothing behind, however it ended. */
  lemma {:induction false} NoWaiterLeaks(steps: seq<Step>, key: string)
    requires key in Exec(steps).client.waiters
    ensures exists n :: n in Exec(steps).calls && key == WaiterKey(n)
    ensures forall n :: n in Exec(steps).calls && key == WaiterKey(n) ==>
      Exec(steps).calls[n].Waiting? || Exec(steps).calls[n].Leaving?
  {
    AlwaysInv(steps);
    var s := Exec(steps);
    var ch := s.client.waiters[key];
    assert ch in s.calls && key == WaiterKey(ch);
    forall n | n in s.calls && key == WaiterKey(n) ensures n == ch {
      NumberKeysDiffer(n, ch);
    }
  }

  lemma {:induction false} StaysDead(steps: seq<Step>, more: seq<Step>)
    requires Exec(steps).client.dead.Some?
    ensures Exec(steps + more).client.dead == Exec(steps).client.dead
  {
    if more == [] {
      assert steps + more == steps;
    } else {
      var before := steps + more[..|more| - 1];
      assert (steps + more)[..|steps + more| - 1] == before;
      StaysDead(steps, more[..|more| - 1]);
      DeadByStep(Exec(before), more[|more| - 1]);
    }
  }

  lemma {:induction false} DeadByStep(s: System, step: Step)
    requires s.client.dead.Some?
    ensures Apply(s, step).client.dead == s.client.dead
  {
  }

  /** Once Fail ran, its error stays and no waiter is ever registered again. */
  lemma {:induction false} DeadForever(steps: seq<Step>, more: seq<Step>)
    requires Exec(steps).client.dead.Some?
    ensures Exec(steps + more).client.dead == Exec(steps).client.dead
    ensures Exec(steps + more).client.waiters == map[]
  {
    StaysDead(steps, more);
    AlwaysInv(steps + more);
  }

  /** When Fail and the handlers are through, every call that still waits can
      go on: its channel is filled or closed. */
  lemma {:induction false} FailReleasesEveryCall(steps: seq<Step>, n: nat)
    requires var s := Exec(steps);
      s.client.dead.Some? && s.handlers == map[] && s.failing == map[] && n in s.calls && s.calls[n] == Waiting
    ensures n in Exec(steps).chans
    ensures Exec(steps + [Receive(n)]).calls[n].Leaving? || Exec(steps + [SeeClosed(n)]).calls[n].Leaving?
  {
    AlwaysInv(steps);
    assert (steps + [Receive(n)])[..|steps|] == steps;
    assert (steps + [SeeClosed(n)])[..|steps|] == steps;
  }

  // ---------------------------------------------------------------- delivery

  lemma {:induction false} ExecThen(steps: seq<Step>, step: Step)
    ensures Exec(steps + [step]) == Apply(Exec(steps), step)
  {
    assert (steps + [step])[..|steps|] == steps;
  }

  /** Call n waits, and the client has its number among the waiters. */
  ghost predicate Awaits(s: System, n: nat) {
    IsWaiting(s, n) && "n:" + Decimal(n) in s.client.waiters
  }

  /** A frame without a method that carries the number of call n as its id. */
  predicate Answers(frame: Message, n: nat) {
    frame.methodName == "" && frame.id == RawId(Decimal(n))
  }

  lemma {:induction false} TakesTheWaiter(s: System, n: nat, h: nat, frame: Message)
    requires Safe(s) && Awaits(s, n) && Answers(frame, n) && h !in s.handlers
    ensures var s' := Apply(s, Handle(h, Some(frame)));
      && h in s'.handlers && s'.handlers[h] == Delivery(n, frame)
      && s'.chans == s.chans && s'.calls == s.calls && s.chans[n] == MADE
  {
    var ch := s.client.waiters[WaiterKey(n)];
    NumberKeysDiffer(ch, n);
  }

  lemma {:induction false} DeliveredIsReceived(s: System, n: nat, h: nat, frame: Message)
    requires IsWaiting(s, n) && s.chans[n] == MADE && h in s.handlers && s.handlers[h] == Delivery(n, frame)
    ensures var s' := Apply(Apply(s, Deliver(h)), Receive(n));
      n in s'.calls && s'.calls[n] == Leaving(Reply(frame))
  {
    Delivered(s, h);
  }

  /** Every response reaches the call that waits for it, whatever other calls wait, and
      however they and the failures interleaved before: the call ends with that very
      frame. */
  lemma {:induction false} ResponseReachesItsCall(steps: seq<Step>, n: nat, h: nat, frame: Message)
    requires Awaits(Exec(steps), n) && Answers(frame, n) && h !in Exec(steps).handlers
    ensures var s := Exec(steps + [Handle(h, Some(frame))] + [Deliver(h)] + [Receive(n)]);
      n in s.calls && s.calls[n] == Leaving(Reply(frame))
  {
    var handled := steps + [Handle(h, Some(frame))];
    AlwaysSafe(steps);
    TakesTheWaiter(Exec(steps), n, h, frame);
    ExecThen(steps, Handle(h, Some(frame)));
    DeliveredIsReceived(Exec(handled), n, h, frame);
    ExecThen(handled, Deliver(h));
    ExecThen(handled + [Deliver(h)], Receive(n));
  }

  lemma {:induction false} AlwaysSafe(steps: seq<Step>)
    ensures Safe(Exec(steps))
  {
    AlwaysInv(steps);
  }

  /** No other frame does anything to the client: one that does not decode, that has a
      method or has no id, or whose id no call waits under. */
  lemma {:induction false} OnlyResponsesMatter(s: System, h: nat, frame: Option<Message>)
    requires h !in s.handlers
    ensures Apply(s, Handle(h, frame)) != s <==>
      frame.Some? && frame.value.methodName == "" && frame.value.id != NoId && Key(frame.value.id) in s.client.waiters
  {
  }

  // ------------------------------------------------------- what outcomes mean

  predicate IsResponse(m: Message) {
    m.methodName == "" && m.id != NoId
  }

  /** Only responses are under way. */
  ghost predicate CarriesResponses(handlers: map<nat, Delivery>, chans: map<nat, Chan>) {
    && (forall h :: h in handlers ==> IsResponse(handlers[h].m))
    && (forall n :: n in chans ==> Carries(chans[n]))
  }

  predicate Carries(chan: Chan) {
    chan.slot == [] || (|chan.slot| == 1 && IsResponse(chan.slot[0]))
  }

  lemma {:induction false} CarriesUpdate(handlers: map<nat, Delivery>, chans: map<nat, Chan>, n: nat, chan: Chan)
    requires CarriesResponses(handlers, chans) && Carries(chan)
    ensures CarriesResponses(handlers, chans[n := chan])
  {
  }

  /** Channels are closed only by a failure. */
  ghost predicate ClosedWhenDead(client: ClientState, chans: map<nat, Chan>, failing: map<string, nat>) {
    client.dead == None ==> failing == map[] && forall n :: n in chans ==> chans[n].closes == 0
  }

  function OutcomeOf(state: CallState): Option<Outcome> {
    match state
    case Leaving(o) => Some(o)
    case Returned(o) => Some(o)
    case _ => None
  }

  ghost predicate OutcomesMean(client: ClientState, calls: map<nat, CallState>) {
    forall n :: n in calls ==>
      match OutcomeOf(calls[n])
      case Some(Reply(m)) => IsResponse(m)
      case Some(TransportDead) => client.dead.Some?
      case _ => true
  }

  ghost predicate Meaningful(s: System) {
    && CarriesResponses(s.handlers, s.chans)
    && ClosedWhenDead(s.client, s.chans, s.failing)
    && OutcomesMean(s.client, s.calls)
  }

  predicate TouchesChannels(step: Step) {
    step.Handle? || step.Deliver? || step.Receive? || step.Expect? || step.CloseOne?
  }

  lemma {:induction false} CarriesByHandle(s: System, h: nat, frame: Option<Message>)
    requires CarriesResponses(s.handlers, s.chans)
    ensures var s' := Apply(s, Handle(h, frame)); CarriesResponses(s'.handlers, s'.chans)
  {
  }

  lemma {:induction false} CarriesByDeliver(s: System, h: nat)
    requires CarriesResponses(s.handlers, s.chans)
    ensures var s' := Apply(s, Deliver(h)); CarriesResponses(s'.handlers, s'.chans)
  {
    if h in s.handlers && s.handlers[h].ch in s.chans {
      var d := s.handlers[h];
      CarriesUpdate(s.handlers, s.chans, d.ch, s.chans[d.ch].(slot := [d.m], fills := s.chans[d.ch].fills + 1));
    }
  }

  lemma {:induction false} CarriesByReceive(s: System, n: nat)
    requires CarriesResponses(s.handlers, s.chans)
    ensures var s' := Apply(s, Receive(n)); CarriesResponses(s'.handlers, s'.chans)
  {
    if IsWaiting(s, n) && s.chans[n].slot != [] {
      CarriesUpdate(s.handlers, s.chans, n, s.chans[n].(slot := s.chans[n].slot[1..]));
    }
  }

  lemma {:induction false} CarriesByExpect(s: System, n: nat)
    requires CarriesResponses(s.handlers, s.chans)
    ensures var s' := Apply(s, Expect(n)); CarriesResponses(s'.handlers, s'.chans)
  {
    CarriesUpdate(s.handlers, s.chans, n, MADE);
    assert Apply(s, Expect(n)).chans == s.chans || Apply(s, Expect(n)).chans == s.chans[n := MADE];
  }

  lemma {:induction false} CarriesByCloseOne(s: System, key: string)
    requires CarriesResponses(s.handlers, s.chans)
    ensures var s' := Apply(s, CloseOne(key)); CarriesResponses(s'.handlers, s'.chans)
  {
    if key in s.failing && s.failing[key] in s.chans {
      var ch := s.failing[key];
      CarriesUpdate(s.handlers, s.chans, ch, s.chans[ch].(closes := s.chans[ch].closes + 1));
    }
  }

  lemma {:induction false} ChannelsUntouched(s: System, step: Step)
    requires !TouchesChannels(step)
    ensures Apply(s, step).handlers == s.handlers && Apply(s, step).chans == s.chans
  {
  }

  lemma {:induction false} CarriesByStep(s: System, step: Step)
    requires CarriesResponses(s.handlers, s.chans)
    ensures CarriesResponses(Apply(s, step).handlers, Apply(s, step).chans)
  {
    match step
    case Handle(h, frame) => CarriesByHandle(s, h, frame);
    case Deliver(h) => CarriesByDeliver(s, h);
    case Receive(n) => CarriesByReceive(s, n);
    case Expect(n) => CarriesByExpect(s, n);
    case CloseOne(key) => CarriesByCloseOne(s, key);
    case _ => ChannelsUntouched(s, step);
  }

  lemma {:induction false} ClosedByChannel(s: System, step: Step)
    requires ClosedWhenDead(s.client, s.chans, s.failing) && TouchesChannels(step)
    ensures var s' := Apply(s, step); ClosedWhenDead(s'.client, s'.chans, s'.failing)
  {
    if step.Handle? || step.Expect? {
      ClosedByMaking(s, step);
    }
  }

  lemma {:induction false} ClosedByMaking(s: System, step: Step)
    requires ClosedWhenDead(s.client, s.chans, s.failing) && (step.Handle? || step.Expect?)
    ensures var s' := Apply(s, step); ClosedWhenDead(s'.client, s'.chans, s'.failing)
  {
  }

  lemma {:induction false} ClosedByOther(s: System, step: Step)
    requires ClosedWhenDead(s.client, s.chans, s.failing) && !TouchesChannels(step)
    ensures var s' := Apply(s, step); ClosedWhenDead(s'.client, s'.chans, s'.failing)
  {
    ChannelsUntouched(s, step);
  }

  lemma {:induction false} OutcomesByReceive(s: System, n: nat)
    requires CarriesResponses(s.handlers, s.chans) && OutcomesMean(s.client, s.calls)
    ensures OutcomesMean(Apply(s, Receive(n)).client, Apply(s, Receive(n)).calls)
  {
  }

  lemma {:induction false} OutcomesBySeeClosed(s: System, n: nat)
    requires ClosedWhenDead(s.client, s.chans, s.failing) && OutcomesMean(s.client, s.calls)
    ensures OutcomesMean(Apply(s, SeeClosed(n)).client, Apply(s, SeeClosed(n)).calls)
  {
  }

  lemma {:induction false} OutcomesByExpect(s: System, n: nat)
    requires OutcomesMean(s.client, s.calls)
    ensures OutcomesMean(Apply(s, Expect(n)).client, Apply(s, Expect(n)).calls)
  {
  }

  lemma {:induction false} OutcomesByOther(s: System, step: Step)
    requires OutcomesMean(s.client, s.calls) && !step.Receive? && !step.SeeClosed? && !step.Expect?
    ensures OutcomesMean(Apply(s, step).client, Apply(s, step).calls)
  {
  }

  lemma {:induction false} OutcomesByStep(s: System, step: Step)
    requires Meaningful(s)
    ensures OutcomesMean(Apply(s, step).client, Apply(s, step).calls)
  {
    match step
    case Receive(n) => OutcomesByReceive(s, n);
    case SeeClosed(n) => OutcomesBySeeClosed(s, n);
    case Expect(n) => OutcomesByExpect(s, n);
    case _ => OutcomesByOther(s, step);
  }

  lemma {:induction false} AlwaysMeaningful(steps: seq<Step>)
    ensures Meaningful(Exec(steps))
  {
    if steps != [] {
      var s, step := Exec(steps[..|steps| - 1]), steps[|steps| - 1];
      AlwaysMeaningful(steps[..|steps| - 1]);
      CarriesByStep(s, step);
      if TouchesChannels(step) {
        ClosedByChannel(s, step);
      } else {
        ClosedByOther(s, step);
      }
      OutcomesByStep(s, step);
    }
  }

  /** In every run what a call gets as its reply is a response, never a request of the
      peer under the same id; and a call that is told of a dead transport finds the
      error of the failure there. */
  lemma {:induction false} OutcomesAreTrue(steps: seq<Step>, n: nat)
    requires n in Exec(steps).calls && (Exec(steps).calls[n].Leaving? || Exec(steps).calls[n].Returned?)
    ensures var outcome := Exec(steps).calls[n].outcome;
      && (outcome.Reply? ==> outcome.m.methodName == "" && outcome.m.id == RawId(Decimal(n)))
      && (outcome == TransportDead ==> Exec(steps).client.dead.Some?)
  {
    AlwaysMeaningful(steps);
    AlwaysInv(steps);
    var state := Exec(steps).calls[n];
    assert OutcomeOf(state) == Some(state.outcome);
    if state.outcome.Reply? {
      KeyOpensOwnNumberOnly(state.outcome.m.id, n);
    }
  }

  /** The way out of a call, whatever ended it: by a timeout or its context at any time it
      waits, by a failed write, or with its reply. It returns what it had, and its
      number is no waiter any more. */
  lemma {:induction false} EveryWayOutForgets(steps: seq<Step>, n: nat)
    requires n in Exec(steps).calls
    ensures Exec(steps).calls[n].Leaving? ==>
      var s := Exec(steps + [Forget(n)]);
      s.calls[n] == Returned(Exec(steps).calls[n].outcome) && "n:" + Decimal(n) !in s.client.waiters
    ensures Exec(steps).calls[n].Waiting? ==>
      && Exec(steps + [GiveUp(n)]).calls[n] == Leaving(GaveUp)
      && Exec(steps + [WriteFails(n)]).calls[n] == Leaving(SendFailed)
  {
    AlwaysSafe(steps);
    ExecThen(steps, Forget(n));
    ExecThen(steps, GiveUp(n));
    ExecThen(steps, WriteFails(n));
  }
}
