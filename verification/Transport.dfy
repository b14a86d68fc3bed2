/**
 The node's WebSocket transport (apps/artood/src/ws-transport.ts): its pending map,
 its reconnect life cycle and the promises it hands to callers. The first half is
 the transition function of every entry point; the second half proves what holds
 over every run of them; the class performs them on the source's own fields.
 */
module Transport {
  import opened Common
  import opened EventKeys

  const CAPACITY: nat := 1000
  /** Policy violation, section 7.4.1 of RFC 6455: the server revoked this node. */
  const POLICY_VIOLATION: nat := 1008

  datatype EventType = OutputEvent | RetainedEvent | OtherEvent

  datatype Message =
    | RunEvent(runId: string, sequence: nat, eventType: EventType, body: nat)
    | Heartbeat
    | Hello
    | Control(body: nat)

  datatype Socket = Connecting | Open | Down
  datatype Ready = Unsettled | IsReady | FailedReady
  datatype Outcome = Resolved | Rejected

  /** A pending entry: the frame, the promise its caller holds, and whether its receipt timer is armed. */
  datatype Entry = Entry(key: string, message: Message, promise: nat, timer: bool)

  /**
   `pending` is the Map in its iteration order. `promises` counts the promises handed
   out, `settled` what each became, `lost` those whose entry another send replaced;
   `wire` is every frame written so far.
   */
  datatype State = State(
    receipts: bool, pending: seq<Entry>, socket: Socket, connectedOnce: bool, closed: bool, ready: Ready,
    reconnectArmed: bool, retries: nat, counter: nat,
    promises: nat, settled: map<nat, Outcome>, lost: set<nat>, wire: seq<Message>)

  function Initial(receipts: bool): State {
    State(receipts, [], Connecting, false, false, Unsettled, false, 0, 0, 0, map[], {}, [])
  }

  // ---------------------------------------------------------------- the pending map

  /** Position of a key in iteration order, or the length when it is absent. */
  function IndexOf(pending: seq<Entry>, key: string): (i: nat)
    ensures i <= |pending|
    ensures i < |pending| ==> pending[i].key == key
    ensures forall j | 0 <= j < i :: pending[j].key != key
  {
    if pending == [] || pending[0].key == key then 0 else 1 + IndexOf(pending[1..], key)
  }

  predicate HasKey(pending: seq<Entry>, key: string) {
    IndexOf(pending, key) < |pending|
  }

  function Settle(s: State, i: nat, outcome: Outcome): State
    requires i < |s.pending|
  {
    s.(pending := s.pending[..i] + s.pending[i + 1..], settled := s.settled[s.pending[i].promise := outcome])
  }

  function SettleKey(s: State, key: string, outcome: Outcome): State {
    var i := IndexOf(s.pending, key);
    if i < |s.pending| then Settle(s, i, outcome) else s
  }

  function FailAll(s: State): State
    decreases |s.pending|
  {
    if s.pending == [] then s else FailAll(Settle(s, 0, Rejected))
  }

  /** Run events wait for the server's receipt; every other frame is done once written. */
  predicate AwaitsReceipt(s: State, m: Message) {
    m.RunEvent? && s.receipts
  }

  /**
   Replay the entries of `rest` after the `kept` ones already written; the write after
   `budget` successful ones fails and ends the pass, leaving what was not reached.
   */
  function FlushRest(s: State, kept: seq<Entry>, rest: seq<Entry>, budget: nat): State
    decreases rest
  {
    if rest == [] || budget == 0 then s.(pending := kept + rest) else
    var w := s.(wire := s.wire + [rest[0].message]);
    if AwaitsReceipt(s, rest[0].message) then FlushRest(w, kept + [rest[0]], rest[1..], budget - 1)
    else FlushRest(w.(settled := w.settled[rest[0].promise := Resolved]), kept, rest[1..], budget - 1)
  }

  // ---------------------------------------------------------------- entry points

  function SettleReady(r: Ready, ok: bool): Ready {
    if r != Unsettled then r else if ok then IsReady else FailedReady
  }

  /** The connection is open and hello has been written. */
  function Greeted(s: State): State {
    s.(socket := Open, connectedOnce := true, retries := 0, wire := s.wire + [Hello])
  }

  /** `budget` writes go through before one throws; a hello that throws ends the handler before the replay. */
  function OnOpen(s: State, budget: nat): State {
    if s.closed then s.(socket := Down)
    else if budget == 0 then s.(socket := Open, connectedOnce := true, retries := 0)
    else
      var f := FlushRest(Greeted(s), [], s.pending, budget - 1);
      f.(ready := SettleReady(f.ready, true))
  }

  function OnReceipt(s: State, runId: string, sequence: nat, accepted: bool): State {
    SettleKey(s, EventKey(runId, sequence), if accepted then Resolved else Rejected)
  }

  function OnError(s: State): State {
    if s.connectedOnce then s else s.(ready := SettleReady(s.ready, false))
  }

  /** Terminal: a rejected or revoked connection, or one that never opened. */
  function GivenUp(s: State): State {
    s.(socket := Down, closed := true, ready := SettleReady(s.ready, false))
  }

  function OnClose(s: State, code: nat): State {
    if s.closed then s.(socket := Down)
    else if !s.connectedOnce || code == POLICY_VIOLATION then FailAll(GivenUp(s))
    else s.(socket := Down, reconnectArmed := true, retries := s.retries + 1)
  }

  function OnReconnect(s: State): State {
    if s.closed then s.(reconnectArmed := false) else s.(reconnectArmed := false, socket := Connecting)
  }

  function OnRetentionTimeout(s: State, key: string): State {
    SettleKey(s, key, Rejected)
  }

  function Close(s: State): State {
    FailAll(GivenUp(s.(reconnectArmed := false)))
  }

  /** A call either throws, finishes without a promise of its own, or hands out promise `id`. */
  datatype SendResult = Threw | Done | Promised(id: nat)

  function MessageKey(s: State, m: Message): string {
    if m.RunEvent? then EventKey(m.runId, m.sequence) else FrameKey(s.counter)
  }

  predicate IsRetention(m: Message) {
    m.RunEvent? && m.eventType == RetainedEvent
  }

  /** Add or, when the key is already there, replace in place: the Map keeps the old position. */
  function PutPending(pending: seq<Entry>, e: Entry): seq<Entry> {
    var i := IndexOf(pending, e.key);
    if i < |pending| then pending[i := e] else pending + [e]
  }

  function Replaced(pending: seq<Entry>, key: string): set<nat> {
    var i := IndexOf(pending, key);
    if i < |pending| then {pending[i].promise} else {}
  }

  function Put(s: State, e: Entry): State {
    s.(pending := PutPending(s.pending, e), lost := s.lost + Replaced(s.pending, e.key))
  }

  function WriteIfOpen(s: State, m: Message, wrote: bool): (State, SendResult) {
    if s.socket != Open then (s, Done)
    else if wrote then (s.(wire := s.wire + [m]), Done) else (s, Threw)
  }

  /** Install an entry and try to write it; a frame that needs no receipt is done once written. */
  function Accept(s: State, e: Entry, wrote: bool): State {
    var p := Put(s.(promises := s.promises + 1), e);
    if s.socket != Open || !wrote then p
    else if AwaitsReceipt(s, e.message) then p.(wire := p.wire + [e.message])
    else SettleKey(p.(wire := p.wire + [e.message]), e.key, Resolved)
  }

  /** Never replace a retention entry, nor replace anything by one. */
  predicate Refuses(s: State, m: Message) {
    var i := IndexOf(s.pending, MessageKey(s, m));
    i < |s.pending| && (IsRetention(m) || IsRetention(s.pending[i].message))
  }

  function Count(s: State, m: Message): State {
    if m.RunEvent? then s else s.(counter := s.counter + 1)
  }

  /** The queued part of `send`, once the frame is neither optional nor a heartbeat. */
  function Enqueue(s: State, m: Message, wrote: bool): (State, SendResult) {
    if |s.pending| >= CAPACITY then (s, Threw)
    else if Refuses(s, m) then (Count(s, m), Threw)
    else
      var e := Entry(MessageKey(s, m), m, s.promises, IsRetention(m) && s.receipts);
      (Accept(Count(s, m), e, wrote), Promised(s.promises))
  }

  /** `wrote` says whether a write attempted by this call went through. */
  function Send(s: State, m: Message, bestEffort: bool, wrote: bool): (State, SendResult) {
    if bestEffort && !(m.RunEvent? && m.eventType == OutputEvent) then (s, Threw)
    else if s.closed then (s, Threw)
    else if bestEffort then
      if HasKey(s.pending, EventKey(m.runId, m.sequence)) then (s, Threw) else WriteIfOpen(s, m, wrote)
    else if m == Heartbeat then WriteIfOpen(s, m, wrote)
    else Enqueue(s, m, wrote)
  }

  // ---------------------------------------------------------------- runs

  datatype Action =
    | ActOpen(budget: nat)
    | ActReceipt(runId: string, sequence: nat, accepted: bool)
    | ActError
    | ActClosed(code: nat)
    | ActReconnect
    | ActTimeout(key: string)
    | ActShutdown
    | ActSend(message: Message, bestEffort: bool, wrote: bool)

  /** What the runtime can deliver next: timers only while armed, `open` only while connecting. */
  predicate Possible(s: State, a: Action) {
    match a
    case ActOpen(_) => s.socket == Connecting
    case ActClosed(_) => s.socket != Down
    case ActReconnect => s.reconnectArmed
    case ActTimeout(key) => var i := IndexOf(s.pending, key); i < |s.pending| && s.pending[i].timer
    case _ => true
  }

  function Step(s: State, a: Action): State {
    match a
    case ActOpen(budget) => OnOpen(s, budget)
    case ActReceipt(runId, sequence, accepted) => OnReceipt(s, runId, sequence, accepted)
    case ActError => OnError(s)
    case ActClosed(code) => OnClose(s, code)
    case ActReconnect => OnReconnect(s)
    case ActTimeout(key) => OnRetentionTimeout(s, key)
    case ActShutdown => Close(s)
    case ActSend(m, bestEffort, wrote) => Send(s, m, bestEffort, wrote).0
  }

  predicate IsRun(s: State, actions: seq<Action>)
    decreases actions
  {
    actions == [] || (Possible(s, actions[0]) && IsRun(Step(s, actions[0]), actions[1..]))
  }

  function Run(s: State, actions: seq<Action>): State
    decreases actions
  {
    if actions == [] then s else Run(Step(s, actions[0]), actions[1..])
  }

  // ---------------------------------------------------------------- promise accounting

  predicate Waiting(pending: seq<Entry>, id: nat) {
    exists i :: 0 <= i < |pending| && pending[i].promise == id
  }

  ghost predicate Shape(pending: seq<Entry>) {
    && (forall i, j | 0 <= i < j < |pending| :: pending[i].key != pending[j].key)
    && (forall i, j | 0 <= i < j < |pending| :: pending[i].promise != pending[j].promise)
  }

  /** Every promise ever handed out is settled, waiting or lost, and only one of the three. */
  ghost predicate Accounted(s: State) {
    forall id: nat {:trigger id in s.settled} {:trigger id in s.lost} {:trigger Waiting(s.pending, id)} ::
      && (id < s.promises <==> id in s.settled || id in s.lost || Waiting(s.pending, id))
      && !(id in s.settled && id in s.lost)
      && (Waiting(s.pending, id) ==> id !in s.settled && id !in s.lost)
  }

  ghost predicate InOrder(pending: seq<Entry>) {
    forall i, j | 0 <= i < j < |pending| :: pending[i].promise < pending[j].promise
  }

  ghost predicate Valid(s: State) {
    && Shape(s.pending)
    && Accounted(s)
    && |s.pending| <= CAPACITY
    && (s.closed ==> s.pending == [])
    && (s.lost == {} ==> InOrder(s.pending))
    && (forall i | 0 <= i < |s.pending| :: s.pending[i].timer ==> IsRetention(s.pending[i].message) && s.receipts)
    && (forall i | 0 <= i < |s.pending| ::
          s.pending[i].message.RunEvent? ==>
            s.pending[i].key == EventKey(s.pending[i].message.runId, s.pending[i].message.sequence))
  }

  /** `t` keeps every promise `s` had already settled exactly as it was. */
  ghost predicate KeepsSettled(s: State, t: State) {
    forall id | id in s.settled :: id in t.settled && t.settled[id] == s.settled[id]
  }

  lemma RemovalWaits(pending: seq<Entry>, i: nat, id: nat)
    requires Shape(pending) && i < |pending|
    ensures Waiting(pending[..i] + pending[i + 1..], id) <==> Waiting(pending, id) && id != pending[i].promise
  {
    var p := pending[..i] + pending[i + 1..];
    if Waiting(pending, id) && id != pending[i].promise {
      var k :| 0 <= k < |pending| && pending[k].promise == id;
      assert p[if k < i then k else k - 1].promise == id;
    }
    if Waiting(p, id) {
      var k :| 0 <= k < |p| && p[k].promise == id;
      assert pending[if k < i then k else k + 1].promise == id;
    }
  }

  lemma RemovalKeepsShape(pending: seq<Entry>, k: nat)
    requires Shape(pending) && k < |pending|
    ensures Shape(pending[..k] + pending[k + 1..])
    ensures InOrder(pending) ==> InOrder(pending[..k] + pending[k + 1..])
    ensures forall e | e in pending[..k] + pending[k + 1..] :: e in pending
  {
    var p := pending[..k] + pending[k + 1..];
    assert forall j | 0 <= j < |p| :: p[j] == pending[if j < k then j else j + 1];
  }

  lemma SettleKeepsValid(s: State, i: nat, outcome: Outcome)
    requires Valid(s) && i < |s.pending|
    ensures Valid(Settle(s, i, outcome)) && KeepsSettled(s, Settle(s, i, outcome))
    ensures Settle(s, i, outcome).lost == s.lost
  {
    var t := Settle(s, i, outcome);
    var gone := s.pending[i].promise;
    assert Waiting(s.pending, gone);
    RemovalKeepsShape(s.pending, i);
    assert forall k | 0 <= k < |t.pending| :: t.pending[k] in s.pending;
    forall id: nat {:trigger id in t.settled} {:trigger id in t.lost} {:trigger Waiting(t.pending, id)}
      ensures && (id < t.promises <==> id in t.settled || id in t.lost || Waiting(t.pending, id))
              && !(id in t.settled && id in t.lost)
              && (Waiting(t.pending, id) ==> id !in t.settled && id !in t.lost)
    {
      RemovalWaits(s.pending, i, id);
      assert id in s.settled || id !in s.settled;
    }
  }

  lemma {:induction false} FailAllKeepsValid(s: State)
    requires Valid(s)
    ensures Valid(FailAll(s)) && KeepsSettled(s, FailAll(s)) && FailAll(s).pending == []
    ensures FailAll(s).lost == s.lost && FailAll(s).closed == s.closed
    decreases |s.pending|
  {
    if s.pending != [] {
      SettleKeepsValid(s, 0, Rejected);
      FailAllKeepsValid(Settle(s, 0, Rejected));
    }
  }

  lemma {:induction false} FlushKeepsValid(s: State, kept: seq<Entry>, rest: seq<Entry>, budget: nat)
    requires Valid(s.(pending := kept + rest))
    ensures var t := FlushRest(s, kept, rest, budget);
            Valid(t) && KeepsSettled(s, t) && t.lost == s.lost && t.closed == s.closed
    decreases rest
  {
    if rest != [] && budget > 0 {
      var w := s.(wire := s.wire + [rest[0].message]);
      assert kept + [rest[0]] + rest[1..] == kept + rest;
      if AwaitsReceipt(s, rest[0].message) {
        FlushKeepsValid(w, kept + [rest[0]], rest[1..], budget - 1);
      } else {
        var full := w.(pending := kept + rest);
        SettleKeepsValid(full, |kept|, Resolved);
        assert full.pending[..|kept|] + full.pending[|kept| + 1..] == kept + rest[1..];
        FlushKeepsValid(w.(settled := w.settled[rest[0].promise := Resolved]), kept, rest[1..], budget - 1);
      }
    }
  }

  lemma PutWaiting(pending: seq<Entry>, e: Entry, id: nat)
    requires Shape(pending)
    ensures Waiting(PutPending(pending, e), id) <==>
            id == e.promise || (Waiting(pending, id) && id !in Replaced(pending, e.key))
  {
    var i, p := IndexOf(pending, e.key), PutPending(pending, e);
    assert p[i] == e;
    assert forall k | 0 <= k < |pending| && k != i :: p[k] == pending[k];
    if Waiting(pending, id) && id !in Replaced(pending, e.key) {
      var k :| 0 <= k < |pending| && pending[k].promise == id;
      assert p[k].promise == id;
    }
  }

  lemma PutKeepsShape(pending: seq<Entry>, e: Entry)
    requires Shape(pending) && forall k | 0 <= k < |pending| :: pending[k].promise < e.promise
    ensures Shape(PutPending(pending, e))
    ensures !HasKey(pending, e.key) && InOrder(pending) ==> InOrder(PutPending(pending, e))
  {}

  lemma PutKeepsAccounted(s: State, e: Entry)
    requires Shape(s.pending) && Accounted(s) && e.promise == s.promises
    ensures Accounted(Put(s.(promises := s.promises + 1), e))
  {
    var p := Put(s.(promises := s.promises + 1), e);
    assert forall id :: id in Replaced(s.pending, e.key) ==> Waiting(s.pending, id);
    forall id: nat {:trigger id in p.settled} {:trigger id in p.lost} {:trigger Waiting(p.pending, id)}
      ensures && (id < p.promises <==> id in p.settled || id in p.lost || Waiting(p.pending, id))
              && !(id in p.settled && id in p.lost)
              && (Waiting(p.pending, id) ==> id !in p.settled && id !in p.lost)
    {
      PutWaiting(s.pending, e, id);
      assert id in s.settled || id !in s.settled;
      assert id in s.lost || id !in s.lost;
    }
  }

  lemma PutKeepsValid(s: State, e: Entry)
    requires Valid(s) && !s.closed && |s.pending| < CAPACITY && e.promise == s.promises
    requires e.message.RunEvent? ==> e.key == EventKey(e.message.runId, e.message.sequence)
    requires e.timer ==> IsRetention(e.message) && s.receipts
    ensures var p := Put(s.(promises := s.promises + 1), e);
            Valid(p) && (p.lost == s.lost <==> !HasKey(s.pending, e.key)) && s.lost <= p.lost
  {
    forall k | 0 <= k < |s.pending| ensures s.pending[k].promise < e.promise && s.pending[k].promise !in s.lost {
      assert Waiting(s.pending, s.pending[k].promise);
    }
    PutKeepsShape(s.pending, e);
    PutKeepsAccounted(s, e);
  }

  lemma SettleKeyKeepsValid(s: State, key: string, outcome: Outcome)
    requires Valid(s)
    ensures Valid(SettleKey(s, key, outcome)) && KeepsSettled(s, SettleKey(s, key, outcome))
    ensures SettleKey(s, key, outcome).lost == s.lost
  {
    var i := IndexOf(s.pending, key);
    if i < |s.pending| { SettleKeepsValid(s, i, outcome); }
  }

  /** A send loses an earlier promise exactly when it is accepted under a key that is still pending. */
  predicate Resends(s: State, a: Action) {
    && a.ActSend?
    && Send(s, a.message, a.bestEffort, a.wrote).1.Promised?
    && HasKey(s.pending, MessageKey(s, a.message))
  }

  lemma AcceptKeepsValid(s: State, e: Entry, wrote: bool)
    requires Valid(s) && !s.closed && |s.pending| < CAPACITY && e.promise == s.promises
    requires e.message.RunEvent? ==> e.key == EventKey(e.message.runId, e.message.sequence)
    requires e.timer ==> IsRetention(e.message) && s.receipts
    ensures var p := Accept(s, e, wrote);
            Valid(p) && (p.lost == s.lost <==> !HasKey(s.pending, e.key)) && s.lost <= p.lost && KeepsSettled(s, p)
  {
    PutKeepsValid(s, e);
    var p := Put(s.(promises := s.promises + 1), e);
    SettleKeyKeepsValid(p.(wire := p.wire + [e.message]), e.key, Resolved);
  }

  lemma EnqueueKeepsValid(s: State, m: Message, wrote: bool)
    requires Valid(s) && !s.closed
    ensures var r := Enqueue(s, m, wrote);
            && Valid(r.0) && KeepsSettled(s, r.0) && s.lost <= r.0.lost && r.0.closed == s.closed
            && (r.0.lost != s.lost <==> r.1.Promised? && HasKey(s.pending, MessageKey(s, m)))
  {
    if |s.pending| < CAPACITY && !Refuses(s, m) {
      AcceptKeepsValid(Count(s, m), Entry(MessageKey(s, m), m, s.promises, IsRetention(m) && s.receipts), wrote);
    }
  }

  lemma SendKeepsValid(s: State, m: Message, bestEffort: bool, wrote: bool)
    requires Valid(s)
    ensures var t := Send(s, m, bestEffort, wrote).0;
            && Valid(t) && KeepsSettled(s, t) && s.lost <= t.lost && t.closed == s.closed
            && (t.lost != s.lost <==> Resends(s, ActSend(m, bestEffort, wrote)))
  {
    if !bestEffort && !s.closed && m != Heartbeat { EnqueueKeepsValid(s, m, wrote); }
  }

  lemma GreetingKeepsValid(s: State)
    requires Valid(s)
    ensures Valid(Greeted(s).(pending := [] + s.pending))
  {
    EmptyIsNeutral(s.pending);
  }

  lemma ReadinessKeepsValid(s: State, ok: bool)
    requires Valid(s)
    ensures Valid(s.(ready := SettleReady(s.ready, ok)))
  {}

  lemma ConnectionKeepsValid(s: State)
    requires Valid(s)
    ensures Valid(s.(socket := Down)) && Valid(s.(socket := Open, connectedOnce := true, retries := 0))
  {}

  lemma OpenKeepsValid(s: State, budget: nat)
    requires Valid(s)
    ensures var t := OnOpen(s, budget);
            Valid(t) && KeepsSettled(s, t) && t.lost == s.lost && t.closed == s.closed
  {
    if !s.closed && budget > 0 {
      GreetingKeepsValid(s);
      FlushKeepsValid(Greeted(s), [], s.pending, budget - 1);
      ReadinessKeepsValid(FlushRest(Greeted(s), [], s.pending, budget - 1), true);
    } else {
      ConnectionKeepsValid(s);
    }
  }

  lemma GivingUpKeepsValid(s: State)
    requires Valid(s)
    ensures var t := FailAll(GivenUp(s));
            Valid(t) && KeepsSettled(s, t) && t.lost == s.lost && t.closed && t.pending == []
  {
    var t := GivenUp(s).(closed := false);
    FailAllKeepsValid(t);
    ClosingFails(t);
  }

  lemma ClosedKeepsValid(s: State, code: nat)
    requires Valid(s)
    ensures var t := OnClose(s, code);
            Valid(t) && KeepsSettled(s, t) && t.lost == s.lost && (s.closed ==> t.closed)
  {
    if !s.closed { GivingUpKeepsValid(s); }
  }

  lemma ShutdownKeepsValid(s: State)
    requires Valid(s)
    ensures var t := Close(s);
            Valid(t) && KeepsSettled(s, t) && t.lost == s.lost && t.closed && t.pending == []
  {
    GivingUpKeepsValid(s.(reconnectArmed := false));
  }

  lemma StepKeepsValid(s: State, a: Action)
    requires Valid(s) && Possible(s, a)
    ensures Valid(Step(s, a)) && KeepsSettled(s, Step(s, a))
    ensures s.closed ==> Step(s, a).closed
    ensures s.lost <= Step(s, a).lost
    ensures Step(s, a).lost != s.lost <==> Resends(s, a)
  {
    match a
    case ActOpen(budget) => OpenKeepsValid(s, budget);
    case ActReceipt(runId, sequence, accepted) =>
      SettleKeyKeepsValid(s, EventKey(runId, sequence), if accepted then Resolved else Rejected);
      SettleKeyKeepsClosed(s, EventKey(runId, sequence), if accepted then Resolved else Rejected);
    case ActError =>
    case ActClosed(code) => ClosedKeepsValid(s, code);
    case ActReconnect =>
    case ActTimeout(key) =>
      SettleKeyKeepsValid(s, key, Rejected);
      SettleKeyKeepsClosed(s, key, Rejected);
    case ActShutdown => ShutdownKeepsValid(s);
    case ActSend(m, bestEffort, wrote) => SendKeepsValid(s, m, bestEffort, wrote);
  }

  lemma SettleKeyKeepsClosed(s: State, key: string, outcome: Outcome)
    ensures SettleKey(s, key, outcome).closed == s.closed
  {}

  /** Failing everything does not look at `closed`. */
  lemma {:induction false} ClosingFails(s: State)
    ensures FailAll(s.(closed := true)) == FailAll(s).(closed := true)
    decreases |s.pending|
  {
    if s.pending != [] {
      ClosingFails(Settle(s, 0, Rejected));
      assert Settle(s.(closed := true), 0, Rejected) == Settle(s, 0, Rejected).(closed := true);
    }
  }

  /** Over every run: accounting, capacity and closure hold, and nothing settled ever changes. */
  lemma {:induction false} RunKeepsValid(s: State, actions: seq<Action>)
    requires Valid(s) && IsRun(s, actions)
    ensures Valid(Run(s, actions)) && KeepsSettled(s, Run(s, actions))
    ensures s.closed ==> Run(s, actions).closed && Run(s, actions).pending == []
    ensures s.lost <= Run(s, actions).lost
    decreases actions
  {
    if actions != [] {
      StepKeepsValid(s, actions[0]);
      RunKeepsValid(Step(s, actions[0]), actions[1..]);
    }
  }

  predicate EverResends(s: State, actions: seq<Action>)
    decreases actions
  {
    actions != [] && (Resends(s, actions[0]) || EverResends(Step(s, actions[0]), actions[1..]))
  }

  /** The condition the guarantee needs is exact: a promise is lost in a run iff some send reused a pending key. */
  lemma {:induction false} LosesIffResends(s: State, actions: seq<Action>)
    requires Valid(s) && IsRun(s, actions)
    ensures Run(s, actions).lost == s.lost <==> !EverResends(s, actions)
    decreases actions
  {
    if actions != [] {
      StepKeepsValid(s, actions[0]);
      RunKeepsValid(Step(s, actions[0]), actions[1..]);
      LosesIffResends(Step(s, actions[0]), actions[1..]);
    }
  }

  /**
   Main result. From a fresh transport, whatever happens: if no pending key is re-sent,
   each promise is settled at most once and is unsettled exactly while its entry is
   pending, replay order is enqueue order, and `pending` stays within capacity.
   */
  lemma EveryPromiseIsTracked(receipts: bool, actions: seq<Action>)
    requires IsRun(Initial(receipts), actions) && !EverResends(Initial(receipts), actions)
    ensures var s := Run(Initial(receipts), actions);
            && (forall id: nat | id < s.promises :: id in s.settled <==> !Waiting(s.pending, id))
            && InOrder(s.pending) && |s.pending| <= CAPACITY && (s.closed ==> s.pending == [])
  {
    RunKeepsValid(Initial(receipts), actions);
    LosesIffResends(Initial(receipts), actions);
  }

  /** Without that condition it fails: re-sending a pending key loses the first promise at once, for good. */
  lemma ResendingLosesAPromise(s: State, m: Message, wrote: bool)
    requires Valid(s) && !s.closed && |s.pending| < CAPACITY
    requires m.RunEvent? && !IsRetention(m) && HasKey(s.pending, MessageKey(s, m))
    requires !IsRetention(s.pending[IndexOf(s.pending, MessageKey(s, m))].message)
    ensures var first := s.pending[IndexOf(s.pending, MessageKey(s, m))].promise;
            var t := Step(s, ActSend(m, false, wrote));
            forall actions | IsRun(t, actions) ::
              var u := Run(t, actions); first < u.promises && first !in u.settled && !Waiting(u.pending, first)
  {
    var first := s.pending[IndexOf(s.pending, MessageKey(s, m))].promise;
    assert Waiting(s.pending, first);
    var t := Step(s, ActSend(m, false, wrote));
    StepKeepsValid(s, ActSend(m, false, wrote));
    assert first in t.lost;
    forall actions | IsRun(t, actions)
      ensures var u := Run(t, actions); first < u.promises && first !in u.settled && !Waiting(u.pending, first)
    {
      RunKeepsValid(t, actions);
      assert first in Run(t, actions).lost;
    }
  }

  // ---------------------------------------------------------------- replay order

  function Messages(pending: seq<Entry>): (ms: seq<Message>)
    ensures |ms| == |pending|
    ensures forall i | 0 <= i < |ms| :: ms[i] == pending[i].message
  {
    seq(|pending|, i requires 0 <= i < |pending| => pending[i].message)
  }

  function Unreceipted(receipts: bool, pending: seq<Entry>): seq<Entry> {
    if pending == [] then []
    else (if receipts && pending[0].message.RunEvent? then [pending[0]] else []) + Unreceipted(receipts, pending[1..])
  }

  function Reached(rest: seq<Entry>, budget: int): (k: nat)
    ensures k <= |rest|
  {
    if budget < 0 then 0 else if budget < |rest| then budget else |rest|
  }

  lemma MessagesFromHead(rest: seq<Entry>, k: nat)
    requires 0 < k <= |rest|
    ensures Messages(rest[..k]) == [rest[0].message] + Messages(rest[1..][..k - 1])
  {}

  /** A replay writes the pending frames in order, as far as the connection lets it. */
  lemma {:induction false} FlushWritesInOrder(s: State, kept: seq<Entry>, rest: seq<Entry>, budget: nat)
    ensures FlushRest(s, kept, rest, budget).wire == s.wire + Messages(rest[..Reached(rest, budget)])
    decreases rest
  {
    if rest != [] && budget > 0 {
      var k, head := Reached(rest, budget), rest[0].message;
      var w := s.(wire := s.wire + [head]);
      var later := Messages(rest[1..][..k - 1]);
      MessagesFromHead(rest, k);
      assert w.wire + later == s.wire + ([head] + later);
      if AwaitsReceipt(s, head) {
        FlushWritesInOrder(w, kept + [rest[0]], rest[1..], budget - 1);
      } else {
        FlushWritesInOrder(w.(settled := w.settled[rest[0].promise := Resolved]), kept, rest[1..], budget - 1);
      }
    }
  }

  /** What a replay that reaches `budget` frames leaves in the map. */
  function Remaining(receipts: bool, rest: seq<Entry>, budget: nat): seq<Entry> {
    if rest == [] || budget == 0 then rest
    else (if receipts && rest[0].message.RunEvent? then [rest[0]] else []) + Remaining(receipts, rest[1..], budget - 1)
  }

  lemma {:induction false} FlushLeavesRemaining(s: State, kept: seq<Entry>, rest: seq<Entry>, budget: nat)
    ensures FlushRest(s, kept, rest, budget).pending == kept + Remaining(s.receipts, rest, budget)
    decreases rest
  {
    if rest != [] && budget > 0 {
      var w := s.(wire := s.wire + [rest[0].message]);
      var later := Remaining(s.receipts, rest[1..], budget - 1);
      if AwaitsReceipt(s, rest[0].message) {
        FlushLeavesRemaining(w, kept + [rest[0]], rest[1..], budget - 1);
        assert kept + [rest[0]] + later == kept + ([rest[0]] + later);
      } else {
        FlushLeavesRemaining(w.(settled := w.settled[rest[0].promise := Resolved]), kept, rest[1..], budget - 1);
        assert [] + later == later;
      }
    }
  }

  lemma TailOfReached(rest: seq<Entry>, k: nat)
    requires 0 < k <= |rest|
    ensures rest[..k][1..] == rest[1..][..k - 1] && rest[1..][k - 1..] == rest[k..]
  {}

  /** Afterwards exactly the frames that still need a receipt and the ones not reached remain, in order. */
  lemma {:induction false} RemainingIsUnreceipted(receipts: bool, rest: seq<Entry>, budget: nat)
    ensures var k := Reached(rest, budget);
            Remaining(receipts, rest, budget) == Unreceipted(receipts, rest[..k]) + rest[k..]
    decreases rest
  {
    if rest != [] && budget > 0 {
      var k := Reached(rest, budget);
      RemainingIsUnreceipted(receipts, rest[1..], budget - 1);
      TailOfReached(rest, k);
      Associative(Unreceipted(receipts, [rest[0]]), Unreceipted(receipts, rest[1..][..k - 1]), rest[k..]);
      EmptyIsNeutral(Unreceipted(receipts, rest[1..][..k - 1]));
    }
  }

  lemma GreetingIsFollowedByReplay(s: State, budget: nat)
    ensures var t := FlushRest(Greeted(s), [], s.pending, budget);
            var k := Reached(s.pending, budget);
            && t.wire == s.wire + ([Hello] + Messages(s.pending[..k]))
            && t.pending == Unreceipted(s.receipts, s.pending[..k]) + s.pending[k..]
            && t.socket == Open && t.retries == 0 && t.ready == s.ready
  {
    FlushWritesInOrder(Greeted(s), [], s.pending, budget);
    FlushLeavesRemaining(Greeted(s), [], s.pending, budget);
    RemainingIsUnreceipted(s.receipts, s.pending, budget);
    FlushKeepsSocket(Greeted(s), [], s.pending, budget);
    EmptyIsNeutral(Remaining(s.receipts, s.pending, budget));
    Associative(s.wire, [Hello], Messages(s.pending[..Reached(s.pending, budget)]));
  }

  /** Reconnecting says hello and then replays, oldest send first, with every promise still tracked. */
  lemma OpenReplaysInEnqueueOrder(s: State, budget: nat)
    requires Valid(s) && !s.closed && s.lost == {}
    ensures var t := OnOpen(s, budget);
            var k := Reached(s.pending, budget - 1);
            && t.wire == s.wire + (if budget == 0 then [] else [Hello] + Messages(s.pending[..k]))
            && t.pending == (if budget == 0 then s.pending
                  else Unreceipted(s.receipts, s.pending[..k]) + s.pending[k..])
            && InOrder(s.pending) && InOrder(t.pending) && t.retries == 0 && t.socket == Open
            && t.ready == (if budget == 0 then s.ready else SettleReady(s.ready, true))
  {
    OpenKeepsValid(s, budget);
    if budget > 0 { GreetingIsFollowedByReplay(s, budget - 1); }
  }

  lemma {:induction false} FlushKeepsSocket(s: State, kept: seq<Entry>, rest: seq<Entry>, budget: nat)
    ensures var t := FlushRest(s, kept, rest, budget);
            && t.socket == s.socket && t.retries == s.retries && t.promises == s.promises
            && t.counter == s.counter && t.receipts == s.receipts && t.ready == s.ready
    decreases rest
  {
    if rest != [] && budget > 0 {
      var w := s.(wire := s.wire + [rest[0].message]);
      FlushKeepsSocket(w, kept + [rest[0]], rest[1..], budget - 1);
      FlushKeepsSocket(w.(settled := w.settled[rest[0].promise := Resolved]), kept, rest[1..], budget - 1);
    }
  }

  lemma {:induction false} FlushIgnoresPending(s: State, p: seq<Entry>, kept: seq<Entry>, rest: seq<Entry>, budget: nat)
    ensures FlushRest(s.(pending := p), kept, rest, budget) == FlushRest(s, kept, rest, budget)
    decreases rest
  {
    if rest != [] && budget > 0 {
      var w := s.(wire := s.wire + [rest[0].message]);
      FlushIgnoresPending(w, p, kept + [rest[0]], rest[1..], budget - 1);
      FlushIgnoresPending(w.(settled := w.settled[rest[0].promise := Resolved]), p, kept, rest[1..], budget - 1);
    }
  }

  /** Taking entry `i` out, or passing it, leaves the entries before it and those after it. */
  lemma SlicesAfter(p: seq<Entry>, i: nat, stays: bool)
    requires i < |p|
    ensures var q, n := if stays then p else p[..i] + p[i + 1..], if stays then i + 1 else i;
            n <= |q| && q[..n] == (if stays then p[..i] + [p[i..][0]] else p[..i]) && q[n..] == p[i..][1..]
  {}

  /** A replay looks at the entries still to come, never at the map it is updating. */
  lemma FlushUnfolds(s: State, p: seq<Entry>, kept: seq<Entry>, rest: seq<Entry>, budget: nat)
    requires rest != [] && budget > 0
    ensures var w := s.(wire := s.wire + [rest[0].message]);
            if AwaitsReceipt(s, rest[0].message)
            then FlushRest(s, kept, rest, budget) == FlushRest(w, kept + [rest[0]], rest[1..], budget - 1)
            else FlushRest(s, kept, rest, budget) ==
                 FlushRest(w.(settled := w.settled[rest[0].promise := Resolved], pending := p), kept, rest[1..],
                     budget - 1)
  {
    var w := s.(wire := s.wire + [rest[0].message]);
    FlushIgnoresPending(w.(settled := w.settled[rest[0].promise := Resolved]), p, kept, rest[1..], budget - 1);
  }

  lemma KeyIsAt(pending: seq<Entry>, i: nat)
    requires Shape(pending) && i < |pending|
    ensures IndexOf(pending, pending[i].key) == i
  {}

  /** Nothing is ever accepted, written or scheduled again once the transport is closed. */
  lemma ClosedStaysEmpty(s: State, a: Action)
    requires Valid(s) && s.closed && Possible(s, a)
    ensures Step(s, a).closed && Step(s, a).pending == [] && Step(s, a).wire == s.wire
    ensures a.ActSend? ==> Send(s, a.message, a.bestEffort, a.wrote).1 == Threw
    ensures a.ActReconnect? ==> Step(s, a).socket == s.socket
  {}

  lemma RemovalKeepsOthers(pending: seq<Entry>, k: nat)
    requires Shape(pending) && k < |pending|
    ensures var p := pending[..k] + pending[k + 1..];
            pending[k] !in p && forall i | 0 <= i < |pending| && i != k :: pending[i] in p
  {
    var p := pending[..k] + pending[k + 1..];
    forall i | 0 <= i < |pending| && i != k ensures pending[i] in p {
      assert p[if i < k then i else i - 1] == pending[i];
    }
    forall j | 0 <= j < |p| ensures p[j] != pending[k] {
      assert p[j] == pending[if j < k then j else j + 1];
    }
  }

  /** A receipt settles the one entry of its own run and sequence, and no other promise changes. */
  lemma ReceiptSettlesItsEntryOnly(s: State, runId: string, sequence: nat, accepted: bool, i: nat)
    requires Valid(s) && i < |s.pending|
    ensures var t := OnReceipt(s, runId, sequence, accepted);
            var e := s.pending[i];
            if e.key == EventKey(runId, sequence)
            then e.promise in t.settled && t.settled[e.promise] == (if accepted then Resolved else Rejected)
                && e !in t.pending
            else e in t.pending && e.promise !in t.settled
  {
    var k := IndexOf(s.pending, EventKey(runId, sequence));
    assert Waiting(s.pending, s.pending[i].promise);
    if k < |s.pending| { RemovalKeepsOthers(s.pending, k); }
  }

  // ---------------------------------------------------------------- what one step can settle

  lemma {:induction false} FailAllRejects(s: State, id: nat)
    requires id !in s.settled
    ensures id in FailAll(s).settled ==> FailAll(s).settled[id] == Rejected
    decreases |s.pending|
  {
    if s.pending != [] {
      var t := Settle(s, 0, Rejected);
      if id == s.pending[0].promise { FailAllKeeps(t, id); } else { FailAllRejects(t, id); }
    }
  }

  lemma {:induction false} FailAllKeeps(s: State, id: nat)
    requires id in s.settled && s.settled[id] == Rejected
    ensures id in FailAll(s).settled && FailAll(s).settled[id] == Rejected
    decreases |s.pending|
  {
    if s.pending != [] { FailAllKeeps(Settle(s, 0, Rejected), id); }
  }

  /** A replay settles no frame that needs a receipt. */
  lemma {:induction false} FlushLeavesReceipted(s: State, kept: seq<Entry>, rest: seq<Entry>, budget: nat, e: Entry)
    requires AwaitsReceipt(s, e.message) && forall i | 0 <= i < |rest| :: rest[i] == e || rest[i].promise != e.promise
    ensures var t := FlushRest(s, kept, rest, budget);
            (e.promise in t.settled <==> e.promise in s.settled)
                && (e.promise in s.settled ==> t.settled[e.promise] == s.settled[e.promise])
    decreases rest
  {
    if rest != [] && budget > 0 {
      var w := s.(wire := s.wire + [rest[0].message]);
      if AwaitsReceipt(s, rest[0].message) {
        FlushLeavesReceipted(w, kept + [rest[0]], rest[1..], budget - 1, e);
      } else {
        FlushLeavesReceipted(w.(settled := w.settled[rest[0].promise := Resolved]), kept, rest[1..], budget - 1, e);
      }
    }
  }

  lemma {:induction false} FlushKeepsMembers(s: State, kept: seq<Entry>, rest: seq<Entry>, budget: nat, e: Entry)
    requires e in FlushRest(s, kept, rest, budget).pending
    ensures e in kept || e in rest
    decreases rest
  {
    if rest != [] && budget > 0 {
      var w := s.(wire := s.wire + [rest[0].message]);
      if AwaitsReceipt(s, rest[0].message) {
        FlushKeepsMembers(w, kept + [rest[0]], rest[1..], budget - 1, e);
      } else {
        FlushKeepsMembers(w.(settled := w.settled[rest[0].promise := Resolved]), kept, rest[1..], budget - 1, e);
      }
    }
  }

  lemma SettleKeyLeaves(s: State, key: string, outcome: Outcome, i: nat)
    requires Valid(s) && i < |s.pending|
    ensures var t := SettleKey(s, key, outcome);
            s.pending[i].promise in t.settled ==> s.pending[i].key == key && t.settled[s.pending[i].promise] == outcome
  {
    assert Waiting(s.pending, s.pending[i].promise);
  }

  /**
   A pending run event that needs a receipt is resolved by nothing but the accepting receipt of
   its own run and sequence: no replay, timer, rejection or disconnect resolves it.
   */
  lemma ResolvedOnlyByItsReceipt(s: State, a: Action, i: nat)
    requires Valid(s) && Possible(s, a) && i < |s.pending| && AwaitsReceipt(s, s.pending[i].message)
    ensures var id, m, t := s.pending[i].promise, s.pending[i].message, Step(s, a);
            id in t.settled && t.settled[id] == Resolved ==> a == ActReceipt(m.runId, m.sequence, true)
  {
    var e := s.pending[i];
    assert Waiting(s.pending, e.promise);
    match a
    case ActOpen(budget) =>
      if !s.closed && budget > 0 { FlushLeavesReceipted(Greeted(s), [], s.pending, budget - 1, e); }
    case ActReceipt(runId, sequence, accepted) =>
      EventKeyInjective(runId, sequence, e.message.runId, e.message.sequence);
      SettleKeyLeaves(s, EventKey(runId, sequence), if accepted then Resolved else Rejected, i);
    case ActError =>
    case ActClosed(code) =>
      if !s.closed && (!s.connectedOnce || code == POLICY_VIOLATION) { FailAllRejects(GivenUp(s), e.promise); }
    case ActReconnect =>
    case ActTimeout(key) => SettleKeyLeaves(s, key, Rejected, i);
    case ActShutdown =>
      FailAllRejects(GivenUp(s.(reconnectArmed := false)), e.promise);
    case ActSend(m, bestEffort, wrote) =>
      if !bestEffort && !s.closed && m != Heartbeat { EnqueueLeaves(s, m, wrote, i); }
  }

  lemma EnqueueLeaves(s: State, m: Message, wrote: bool, i: nat)
    requires Valid(s) && !s.closed && i < |s.pending|
    ensures s.pending[i].promise !in Enqueue(s, m, wrote).0.settled
  {
    assert Waiting(s.pending, s.pending[i].promise);
    if |s.pending| < CAPACITY && !Refuses(s, m) { AcceptLeaves(Count(s, m), NewEntry(s, m), wrote, i); }
  }

  /** The entry a send would install. */
  function NewEntry(s: State, m: Message): Entry {
    Entry(MessageKey(s, m), m, s.promises, IsRetention(m) && s.receipts)
  }

  lemma AcceptLeaves(s: State, e: Entry, wrote: bool, i: nat)
    requires i < |s.pending| && s.pending[i].promise !in s.settled && s.pending[i].promise != e.promise
    ensures s.pending[i].promise !in Accept(s, e, wrote).settled
  {
    var p := Put(s.(promises := s.promises + 1), e);
    var w := p.(wire := p.wire + [e.message]);
    FirstWithKey(s.pending, e);
    assert Accept(s, e, wrote).settled == p.settled ||
           Accept(s, e, wrote).settled == Settle(w, IndexOf(s.pending, e.key), Resolved).settled;
  }

  /** After a put, the first entry under the key is the new one. */
  lemma FirstWithKey(pending: seq<Entry>, e: Entry)
    ensures var i, p := IndexOf(pending, e.key), PutPending(pending, e);
            i < |p| && p[i] == e && IndexOf(p, e.key) == i
  {
    var i, p := IndexOf(pending, e.key), PutPending(pending, e);
    assert p[i] == e;
    assert forall j | 0 <= j < i :: p[j] == pending[j];
  }

  lemma PutMembers(pending: seq<Entry>, n: Entry, e: Entry)
    requires e in PutPending(pending, n)
    ensures e in pending || e == n
  {}

  lemma SendInstallsOnly(s: State, n: Entry, wrote: bool, e: Entry)
    requires e in Accept(s, n, wrote).pending
    ensures e in s.pending || e == n
  {
    var p := Put(s.(promises := s.promises + 1), n);
    var w := p.(wire := p.wire + [n.message]);
    assert e !in p.pending ==> Accept(s, n, wrote) == SettleKey(w, n.key, Resolved);
    if e !in p.pending { SettlingInstallsNothing(w, n.key, Resolved, e); }
    PutMembers(s.pending, n, e);
  }

  lemma OpenInstallsNothing(s: State, budget: nat, e: Entry)
    requires e in OnOpen(s, budget).pending
    ensures e in s.pending
  {
    if !s.closed && budget > 0 { FlushKeepsMembers(Greeted(s), [], s.pending, budget - 1, e); }
  }

  lemma SettlingInstallsNothing(s: State, key: string, outcome: Outcome, e: Entry)
    requires e in SettleKey(s, key, outcome).pending
    ensures e in s.pending
  {}

  /** A step keeps pending entries or installs the one it sends; nothing else appears in the map. */
  lemma PendingOnlyFromSends(s: State, a: Action, e: Entry)
    requires e in Step(s, a).pending
    ensures e in s.pending || (a.ActSend? && !a.bestEffort && e == NewEntry(s, a.message))
  {
    match a
    case ActOpen(budget) => OpenInstallsNothing(s, budget, e);
    case ActReceipt(runId, sequence, accepted) =>
      SettlingInstallsNothing(s, EventKey(runId, sequence), if accepted then Resolved else Rejected, e);
    case ActError =>
    case ActClosed(code) => EmptyAfterFailing(GivenUp(s));
    case ActReconnect =>
    case ActTimeout(key) => SettlingInstallsNothing(s, key, Rejected, e);
    case ActShutdown => EmptyAfterFailing(GivenUp(s.(reconnectArmed := false)));
    case ActSend(m, bestEffort, wrote) =>
      if !bestEffort && !s.closed && m != Heartbeat && |s.pending| < CAPACITY && !Refuses(s, m) {
        SendInstallsOnly(Count(s, m), NewEntry(s, m), wrote, e);
      }
  }

  lemma {:induction false} EmptyAfterFailing(s: State)
    ensures FailAll(s).pending == []
    decreases |s.pending|
  {
    if s.pending != [] { EmptyAfterFailing(Settle(s, 0, Rejected)); }
  }

  // ---------------------------------------------------------------- what one step can write or count

  ghost predicate AllSatisfy(ms: seq<Message>, p: Message -> bool) {
    forall k | 0 <= k < |ms| :: p(ms[k])
  }

  lemma {:induction false} FlushWritesOnly(s: State, kept: seq<Entry>, rest: seq<Entry>, budget: nat,
      p: Message -> bool)
    requires AllSatisfy(s.wire, p) && AllSatisfy(Messages(rest), p)
    ensures AllSatisfy(FlushRest(s, kept, rest, budget).wire, p)
  {
    FlushWritesInOrder(s, kept, rest, budget);
    assert forall k | 0 <= k < |rest| :: Messages(rest)[k] == rest[k].message;
  }

  lemma {:induction false} FailAllKeepsRest(s: State)
    ensures var t := FailAll(s);
            t.wire == s.wire && t.counter == s.counter && t.promises == s.promises && t.receipts == s.receipts
    decreases |s.pending|
  {
    if s.pending != [] { FailAllKeepsRest(Settle(s, 0, Rejected)); }
  }

  lemma AcceptWrites(s: State, e: Entry, wrote: bool)
    ensures var t := Accept(s, e, wrote);
            && (t.wire == s.wire || t.wire == s.wire + [e.message])
            && t.counter == s.counter && t.promises == s.promises + 1 && t.receipts == s.receipts
  {}

  lemma EnqueueWritesOnly(s: State, m: Message, wrote: bool, p: Message -> bool)
    requires AllSatisfy(s.wire, p) && p(m)
    ensures var t := Enqueue(s, m, wrote).0;
            AllSatisfy(t.wire, p) && t.counter >= s.counter && t.promises >= s.promises && t.receipts == s.receipts
  {
    AcceptWrites(Count(s, m), NewEntry(s, m), wrote);
  }

  lemma OpenWritesOnly(s: State, budget: nat, p: Message -> bool)
    requires !s.closed && AllSatisfy(s.wire, p) && AllSatisfy(Messages(s.pending), p) && p(Hello)
    ensures var t := OnOpen(s, budget);
            AllSatisfy(t.wire, p) && t.counter == s.counter && t.promises == s.promises && t.receipts == s.receipts
  {
    if budget > 0 {
      FlushWritesOnly(Greeted(s), [], s.pending, budget - 1, p);
      FlushKeepsSocket(Greeted(s), [], s.pending, budget - 1);
    }
  }

  /** Receipts, errors, closes, timers and shutdown write nothing. */
  lemma OtherStepsWriteNothing(s: State, a: Action)
    requires !a.ActOpen? && !a.ActSend?
    ensures var t := Step(s, a);
            t.wire == s.wire && t.counter == s.counter && t.promises == s.promises && t.receipts == s.receipts
  {
    if a.ActClosed? { FailAllKeepsRest(GivenUp(s)); }
    if a.ActShutdown? { FailAllKeepsRest(GivenUp(s.(reconnectArmed := false))); }
  }

  /** A step writes hello, frames that were pending and the frame it sends, nothing else; its counters only grow. */
  lemma StepWritesOnly(s: State, a: Action, p: Message -> bool)
    requires AllSatisfy(s.wire, p) && AllSatisfy(Messages(s.pending), p) && p(Hello) && (a.ActSend? ==> p(a.message))
    ensures var t := Step(s, a);
            AllSatisfy(t.wire, p) && t.counter >= s.counter && t.promises >= s.promises && t.receipts == s.receipts
  {
    match a
    case ActOpen(budget) => if !s.closed { OpenWritesOnly(s, budget, p); }
    case ActSend(m, bestEffort, wrote) =>
      if !bestEffort && !s.closed && m != Heartbeat { EnqueueWritesOnly(s, m, wrote, p); }
    case _ => OtherStepsWriteNothing(s, a);
  }

  /** A run event the transport accepts stays pending until its receipt, with the next promise as its own. */
  lemma AcceptedEventWaits(s: State, m: Message, wrote: bool)
    requires Valid(s) && !s.closed && AwaitsReceipt(s, m) && Enqueue(s, m, wrote).1.Promised?
    ensures var t := Enqueue(s, m, wrote).0;
            Enqueue(s, m, wrote).1.id == s.promises && t.promises == s.promises + 1 && Waiting(t.pending, s.promises)
  {
    FirstWithKey(s.pending, NewEntry(s, m));
    assert Enqueue(s, m, wrote).0.pending == PutPending(s.pending, NewEntry(s, m));
  }
}
