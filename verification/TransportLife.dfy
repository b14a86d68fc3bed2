/**
 When the node's transport lives, reconnects and gives up (apps/artood/src/ws-transport.ts:78-211), and exactly what
 each send does: the events and sends that matter are named by their own arguments, over every run.
 */
module TransportLife {
  import opened Common
  import opened EventKeys
  import opened Transport

  // ---------------------------------------------------------------- giving up

  /** The event at `k` ends the transport for good: a shutdown, a revocation, or a close before any open. */
  predicate EndsAt(connected: bool, actions: seq<Action>, k: nat)
    requires k < |actions|
  {
    || actions[k].ActShutdown?
    || (actions[k].ActClosed?
          && (actions[k].code == 1008 || (!connected && forall j | 0 <= j < k :: !actions[j].ActOpen?)))
  }

  predicate Ends(connected: bool, actions: seq<Action>) {
    exists k :: 0 <= k < |actions| && EndsAt(connected, actions, k)
  }

  /** One event: what it does to `closed` and to the memory of a first connection. */
  lemma StepEndsExactly(s: State, a: Action)
    requires Valid(s) && Possible(s, a)
    ensures var t := Step(s, a);
            && (t.closed <==> s.closed || a.ActShutdown? || (a.ActClosed? && (a.code == 1008 || !s.connectedOnce)))
            && (t.connectedOnce <==> s.connectedOnce || (a.ActOpen? && !s.closed))
  {
    match a
    case ActOpen(budget) => OpenDecides(s, budget);
    case ActClosed(code) => CloseDecides(s, code);
    case ActShutdown => ShutdownDecides(s);
    case _ => OthersKeepLife(s, a);
  }

  lemma OpenDecides(s: State, budget: nat)
    ensures var t := OnOpen(s, budget);
            && t.closed == s.closed && (t.connectedOnce <==> s.connectedOnce || !s.closed)
            && t.ready == if s.ready == Unsettled && !s.closed && budget > 0 then IsReady else s.ready
  {
    if !s.closed && budget > 0 { FlushKeepsLife(Greeted(s), [], s.pending, budget - 1); }
  }

  lemma CloseDecides(s: State, code: nat)
    ensures var t, ends := OnClose(s, code), !s.closed && (code == 1008 || !s.connectedOnce);
            && (t.closed <==> s.closed || ends) && t.connectedOnce == s.connectedOnce
            && t.ready == if s.ready == Unsettled && ends then FailedReady else s.ready
  {
    FailAllKeepsLife(GivenUp(s));
  }

  lemma ShutdownDecides(s: State)
    ensures var t := Close(s);
            && t.closed && t.connectedOnce == s.connectedOnce
            && t.ready == if s.ready == Unsettled then FailedReady else s.ready
  {
    FailAllKeepsLife(GivenUp(s.(reconnectArmed := false)));
  }

  lemma AcceptKeepsLife(s: State, e: Entry, wrote: bool)
    ensures SameLife(s, Accept(s, e, wrote))
  {}

  lemma OthersKeepLife(s: State, a: Action)
    requires !a.ActOpen? && !a.ActClosed? && !a.ActShutdown?
    ensures var t := Step(s, a);
            && t.closed == s.closed && t.connectedOnce == s.connectedOnce
            && t.ready == if s.ready == Unsettled && a.ActError? && !s.connectedOnce then FailedReady else s.ready
  {
    match a
    case ActSend(m, bestEffort, wrote) => SendKeepsLife(s, m, bestEffort, wrote);
    case ActReceipt(runId, sequence, accepted) =>
      SettleKeepsLife(s, EventKey(runId, sequence), if accepted then Resolved else Rejected);
    case ActTimeout(key) => SettleKeepsLife(s, key, Rejected);
    case _ =>
  }

  lemma SettleKeepsLife(s: State, key: string, outcome: Outcome)
    ensures SameLife(s, SettleKey(s, key, outcome))
  {}

  lemma SendKeepsLife(s: State, m: Message, bestEffort: bool, wrote: bool)
    ensures SameLife(s, Send(s, m, bestEffort, wrote).0)
  {
    AcceptKeepsLife(Count(s, m), NewEntry(s, m), wrote);
  }

  /** What a settlement never touches. */
  ghost predicate SameLife(s: State, t: State) {
    && t.closed == s.closed && t.connectedOnce == s.connectedOnce && t.socket == s.socket
    && t.reconnectArmed == s.reconnectArmed && t.retries == s.retries && t.ready == s.ready
  }

  lemma {:induction false} FlushKeepsLife(s: State, kept: seq<Entry>, rest: seq<Entry>, budget: nat)
    ensures SameLife(s, FlushRest(s, kept, rest, budget))
    decreases rest
  {
    if rest != [] && budget > 0 {
      var w := s.(wire := s.wire + [rest[0].message]);
      FlushKeepsLife(w, kept + [rest[0]], rest[1..], budget - 1);
      FlushKeepsLife(w.(settled := w.settled[rest[0].promise := Resolved]), kept, rest[1..], budget - 1);
    }
  }

  lemma {:induction false} FailAllKeepsLife(s: State)
    ensures SameLife(s, FailAll(s))
    decreases |s.pending|
  {
    if s.pending != [] { FailAllKeepsLife(Settle(s, 0, Rejected)); }
  }

  lemma EndsFromHead(connected: bool, actions: seq<Action>)
    requires actions != []
    ensures var a := actions[0];
            Ends(connected, actions) <==>
              || a.ActShutdown? || (a.ActClosed? && (a.code == 1008 || !connected))
              || Ends(connected || a.ActOpen?, actions[1..])
  {
    var rest := actions[1..];
    var after := connected || actions[0].ActOpen?;
    assert EndsAt(connected, actions, 0) <==>
           actions[0].ActShutdown? || (actions[0].ActClosed? && (actions[0].code == 1008 || !connected));
    forall k | 0 <= k < |rest| ensures EndsAt(after, rest, k) <==> EndsAt(connected, actions, k + 1) {
      assert rest[k] == actions[k + 1];
      assert forall j | 0 <= j < k :: rest[j] == actions[j + 1];
      if forall j | 0 <= j < k + 1 :: !actions[j].ActOpen? { assert !actions[0].ActOpen?; }
      if !after && forall j | 0 <= j < k :: !rest[j].ActOpen? {
        forall j | 0 <= j < k + 1 ensures !actions[j].ActOpen? { if j > 0 { assert !rest[j - 1].ActOpen?; } }
      }
    }
    if Ends(after, rest) {
      var k :| 0 <= k < |rest| && EndsAt(after, rest, k);
      assert EndsAt(connected, actions, k + 1);
    }
    if Ends(connected, actions) {
      var k :| 0 <= k < |actions| && EndsAt(connected, actions, k);
      if k > 0 { assert EndsAt(after, rest, k - 1); }
    }
  }

  lemma {:induction false} ClosedIffEnded(s: State, actions: seq<Action>)
    requires Valid(s) && !s.closed && IsRun(s, actions)
    ensures Run(s, actions).closed <==> Ends(s.connectedOnce, actions)
    decreases actions
  {
    if actions != [] {
      var t := Step(s, actions[0]);
      StepEndsExactly(s, actions[0]);
      StepKeepsValid(s, actions[0]);
      EndsFromHead(s.connectedOnce, actions);
      if t.closed { RunKeepsValid(t, actions[1..]); } else { ClosedIffEnded(t, actions[1..]); }
    }
  }

  /**
   Main result: over every run the transport is closed if and only if it was shut down, revoked (code 1008), or
   closed before it ever opened. No other drop, error or timeout ends it.
   */
  lemma ClosedExactly(receipts: bool, actions: seq<Action>)
    requires IsRun(Initial(receipts), actions)
    ensures Run(Initial(receipts), actions).closed <==>
              exists k :: 0 <= k < |actions| && EndsAt(false, actions, k)
  {
    ClosedIffEnded(Initial(receipts), actions);
  }

  // ---------------------------------------------------------------- an ordinary drop

  /** Every other drop keeps each pending entry and every verdict, and arms the reconnect. */
  lemma DropKeepsEverything(s: State, code: nat)
    requires Valid(s) && !s.closed && s.connectedOnce && s.socket != Down && code != 1008
    ensures var t := Step(s, ActClosed(code));
            && t == s.(socket := Down, reconnectArmed := true, retries := s.retries + 1)
            && Possible(t, ActReconnect) && Possible(Step(t, ActReconnect), ActOpen(0))
            && Step(t, ActReconnect).pending == s.pending && !Step(t, ActReconnect).reconnectArmed
  {}

  /** A terminal one rejects exactly what was pending and leaves every other promise as it was. */
  lemma EndRejectsWhatIsPending(s: State, a: Action, id: nat)
    requires Valid(s) && Possible(s, a) && !s.closed
    requires a.ActShutdown? || (a.ActClosed? && (a.code == 1008 || !s.connectedOnce))
    ensures var t := Step(s, a);
            && t.closed && t.pending == [] && t.socket == Down && (s.ready == Unsettled ==> t.ready == FailedReady)
            && (id in t.settled <==> id in s.settled || Waiting(s.pending, id))
            && (id in s.settled ==> t.settled[id] == s.settled[id])
            && (Waiting(s.pending, id) ==> t.settled[id] == Rejected)
  {
    var g := if a.ActShutdown? then GivenUp(s.(reconnectArmed := false)) else GivenUp(s);
    assert Step(s, a) == FailAll(g);
    FailAllKeepsLife(g);
    EmptyAfterFailing(g);
    FailAllSettles(g, id);
  }

  lemma {:induction false} FailAllSettles(s: State, id: nat)
    requires Shape(s.pending) && (Waiting(s.pending, id) ==> id !in s.settled)
    ensures var t := FailAll(s);
            && (id in t.settled <==> id in s.settled || Waiting(s.pending, id))
            && (id in s.settled ==> t.settled[id] == s.settled[id])
            && (Waiting(s.pending, id) ==> t.settled[id] == Rejected)
    decreases |s.pending|
  {
    if s.pending != [] {
      var t := Settle(s, 0, Rejected);
      RemovalWaits(s.pending, 0, id);
      RemovalKeepsShape(s.pending, 0);
      if id == s.pending[0].promise { assert Waiting(s.pending, id); }
      FailAllSettles(t, id);
    }
  }

  /**
   Main result: what is pending at an ordinary drop is written again, all of it and in order, on the next connection
   that takes it, and afterwards waits only for the receipts it needs.
   */
  lemma DropIsFollowedByReplay(s: State, code: nat, budget: nat)
    requires Valid(s) && !s.closed && s.connectedOnce && s.socket != Down && s.lost == {} && code != 1008
    requires budget > |s.pending|
    ensures var actions := [ActClosed(code), ActReconnect, ActOpen(budget)];
            && IsRun(s, actions)
            && var t := Run(s, actions);
            && !t.closed && t.socket == Open && t.wire == s.wire + ([Hello] + Messages(s.pending))
            && t.pending == Unreceipted(s.receipts, s.pending)
  {
    var a, b, c := ActClosed(code), ActReconnect, ActOpen(budget);
    var u := Step(Step(s, a), b);
    DropKeepsEverything(s, code);
    assert u == s.(socket := Connecting, reconnectArmed := false, retries := s.retries + 1);
    DroppedStaysValid(s);
    OpenDecides(u, budget);
    ReplayOfAll(u, budget);
    ThreeSteps(s, a, b, c);
  }

  lemma DroppedStaysValid(s: State)
    requires Valid(s)
    ensures Valid(s.(socket := Connecting, reconnectArmed := false, retries := s.retries + 1))
  {}

  lemma ReplayOfAll(s: State, budget: nat)
    requires Valid(s) && !s.closed && s.lost == {} && budget > |s.pending|
    ensures var t := OnOpen(s, budget);
            && t.socket == Open && t.wire == s.wire + ([Hello] + Messages(s.pending))
            && t.pending == Unreceipted(s.receipts, s.pending)
  {
    OpenReplaysInEnqueueOrder(s, budget);
    var k := Reached(s.pending, budget - 1);
    assert s.pending[..k] == s.pending && s.pending[k..] == [];
    EmptyIsNeutral(Unreceipted(s.receipts, s.pending));
  }

  lemma ThreeSteps(s: State, a: Action, b: Action, c: Action)
    requires Possible(s, a) && Possible(Step(s, a), b) && Possible(Step(Step(s, a), b), c)
    ensures IsRun(s, [a, b, c]) && Run(s, [a, b, c]) == Step(Step(Step(s, a), b), c)
  {
    var t, u := Step(s, a), Step(Step(s, a), b);
    assert [c][1..] == [] && IsRun(u, [c]) && Run(u, [c]) == Step(u, c);
    assert [b, c][1..] == [c] && IsRun(t, [b, c]) && Run(t, [b, c]) == Step(u, c);
    assert [a, b, c][1..] == [b, c];
  }

  /** Readiness is decided once: by the first open that can say hello, or by an error or end before any. */
  lemma ReadinessIsDecidedOnce(s: State, a: Action)
    requires Valid(s) && Possible(s, a)
    ensures var t := Step(s, a);
            var opens := a.ActOpen? && !s.closed && a.budget > 0;
            var fails := (a.ActError? && !s.connectedOnce) || a.ActShutdown?
                         || (a.ActClosed? && !s.closed && (a.code == 1008 || !s.connectedOnce));
            t.ready == if s.ready != Unsettled then s.ready else if opens then IsReady
                       else if fails then FailedReady else Unsettled
  {
    match a
    case ActOpen(budget) => OpenDecides(s, budget);
    case ActClosed(code) => CloseDecides(s, code);
    case ActShutdown => ShutdownDecides(s);
    case _ => OthersKeepLife(s, a);
  }

  // ---------------------------------------------------------------- what a replay settles

  /** A replay resolves exactly the frames it wrote that need no receipt. */
  lemma {:induction false} FlushSettles(s: State, kept: seq<Entry>, rest: seq<Entry>, budget: nat, id: nat)
    requires forall i, j | 0 <= i < j < |rest| :: rest[i].promise != rest[j].promise
    ensures var t := FlushRest(s, kept, rest, budget);
            var k := Reached(rest, budget);
            if exists i :: 0 <= i < k && rest[i].promise == id && !(s.receipts && rest[i].message.RunEvent?)
            then id in t.settled && t.settled[id] == Resolved
            else (id in t.settled <==> id in s.settled) && (id in s.settled ==> t.settled[id] == s.settled[id])
    decreases rest
  {
    if rest != [] && budget > 0 {
      var e, k := rest[0], Reached(rest, budget);
      var w := s.(wire := s.wire + [e.message]);
      var next := if AwaitsReceipt(s, e.message) then w else w.(settled := w.settled[e.promise := Resolved]);
      var more := if AwaitsReceipt(s, e.message) then kept + [e] else kept;
      FlushSettles(next, more, rest[1..], budget - 1, id);
      assert forall i | 0 <= i < k - 1 :: rest[1..][i] == rest[i + 1];
      if i :| 0 <= i < k && rest[i].promise == id && !(s.receipts && rest[i].message.RunEvent?) {
        if i > 0 { assert rest[1..][i - 1] == rest[i]; }
      }
      if i :| 0 <= i < k - 1 && rest[1..][i].promise == id && !(s.receipts && rest[1..][i].message.RunEvent?) {
        assert rest[i + 1].promise == id;
      }
    }
  }

  /** A retention deadline takes out its own entry and rejects it; every other entry and promise stays. */
  lemma TimeoutRejectsExactly(s: State, i: nat)
    requires Valid(s) && i < |s.pending| && s.pending[i].timer
    ensures var a := ActTimeout(s.pending[i].key);
            && Possible(s, a)
            && var t := Step(s, a);
            && t.pending == s.pending[..i] + s.pending[i + 1..] && SameLife(s, t) && t.wire == s.wire
            && t.settled == s.settled[s.pending[i].promise := Rejected]
  {
    KeyIsAt(s.pending, i);
  }

  // ---------------------------------------------------------------- sends

  predicate KeyPending(s: State, key: string) {
    exists i :: 0 <= i < |s.pending| && s.pending[i].key == key
  }

  /** A pending entry under this key forbids the message: it or the message itself is a retention event. */
  predicate Guarded(s: State, key: string, m: Message) {
    exists i :: 0 <= i < |s.pending| && s.pending[i].key == key
      && ((m.RunEvent? && m.eventType == RetainedEvent)
          || (s.pending[i].message.RunEvent? && s.pending[i].message.eventType == RetainedEvent))
  }

  /** A write is attempted on an open socket only. */
  predicate WriteFails(s: State, wrote: bool) {
    s.socket == Open && !wrote
  }

  function KeyOf(s: State, m: Message): string {
    if m.RunEvent? then EventKey(m.runId, m.sequence) else FrameKey(s.counter)
  }

  /** When a send throws: by kind, by state, and for what waits or is full. */
  predicate SendThrows(s: State, m: Message, bestEffort: bool, wrote: bool) {
    || s.closed
    || (bestEffort
          && (!m.RunEvent? || m.eventType != OutputEvent || KeyPending(s, KeyOf(s, m)) || WriteFails(s, wrote)))
    || (!bestEffort && m == Heartbeat && WriteFails(s, wrote))
    || (!bestEffort && m != Heartbeat && (|s.pending| >= 1000 || Guarded(s, KeyOf(s, m), m)))
  }

  lemma FirstIsTheOnly(s: State, key: string)
    requires Valid(s)
    ensures HasKey(s.pending, key) <==> KeyPending(s, key)
    ensures forall i | 0 <= i < |s.pending| && s.pending[i].key == key :: i == IndexOf(s.pending, key)
  {}

  /** A send that throws has written and settled nothing and left the map alone. */
  lemma SendThrowsExactly(s: State, m: Message, bestEffort: bool, wrote: bool)
    requires Valid(s)
    ensures var r := Send(s, m, bestEffort, wrote);
            && (r.1 == Threw <==> SendThrows(s, m, bestEffort, wrote))
            && (r.1 == Threw ==> r.0 == s.(counter := r.0.counter))
            && (r.1 == Done ==> (bestEffort || m == Heartbeat)
                                && r.0 == s.(wire := if s.socket == Open then s.wire + [m] else s.wire))
            && (r.1.Promised? ==> !bestEffort && m != Heartbeat && r.1.id == s.promises)
  {
    FirstIsTheOnly(s, KeyOf(s, m));
  }

  /**
   A send that is queued is written if the socket takes it, and settled at once exactly if it then needs no
   receipt.
   */
  lemma QueuedSendExactly(s: State, m: Message, wrote: bool)
    requires Valid(s) && !SendThrows(s, m, false, wrote) && m != Heartbeat
    ensures var t := Send(s, m, false, wrote).0;
            var id, written := s.promises, s.socket == Open && wrote;
            && t.promises == id + 1 && t.wire == (if written then s.wire + [m] else s.wire)
            && (id in t.settled <==> written && !(m.RunEvent? && s.receipts))
            && (id in t.settled ==> t.settled == s.settled[id := Resolved])
            && (id !in t.settled ==>
                  t.settled == s.settled &&
                  exists i :: 0 <= i < |t.pending| && t.pending[i] == Entry(KeyOf(s, m), m, id,
                                m.RunEvent? && m.eventType == RetainedEvent && s.receipts))
  {
    FirstIsTheOnly(s, KeyOf(s, m));
    var e := NewEntry(s, m);
    FirstWithKey(s.pending, e);
    QueuedPromiseIsNew(s);
    assert Send(s, m, false, wrote).0 == Accept(Count(s, m), e, wrote);
    var p := PutPending(s.pending, e);
    assert p[IndexOf(p, e.key)] == e;
  }

  lemma QueuedPromiseIsNew(s: State)
    requires Valid(s)
    ensures s.promises !in s.settled
  {
    assert !(s.promises in s.settled && s.promises >= s.promises);
  }
}
