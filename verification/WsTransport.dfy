/**
 The transport object itself (apps/artood/src/ws-transport.ts): the closure variables
 of `createWebSocketTransport` as fields, and one method per event callback or call.
 Each method is proved to perform the transition of the same name in Transport.
 */
module WsTransport {
  import opened EventKeys
  import opened Transport
  import TransportLife

  class WebSocketTransport {
    const receipts: bool
    var pending: seq<Entry>
    var socket: Socket
    var connectedOnce: bool
    var closed: bool
    var ready: Ready
    var reconnectArmed: bool
    var retries: nat
    var counter: nat
    // The identity of the next promise `send` returns.
    var promises: nat
    ghost var settled: map<nat, Outcome>
    ghost var lost: set<nat>
    ghost var wire: seq<Message>

    ghost function View(): Transport.State
      reads this
    {
      State(receipts, pending, socket, connectedOnce, closed, ready, reconnectArmed, retries, counter,
            promises, settled, lost, wire)
    }

    constructor (acknowledgeRunEvents: bool)
      ensures receipts == acknowledgeRunEvents && View() == Initial(acknowledgeRunEvents) && Transport.Valid(View())
    {
      receipts := acknowledgeRunEvents;
      pending, socket, connectedOnce, closed := [], Connecting, false, false;
      ready, reconnectArmed, retries, counter := Unsettled, false, 0, 0;
      promises, settled, lost, wire := 0, map[], {}, [];
    }

    method SettlePending(key: string, outcome: Outcome)
      modifies this`pending, this`settled
      ensures View() == SettleKey(old(View()), key, outcome)
    {
      var i := IndexOf(pending, key);
      if i == |pending| { return; }
      settled := settled[pending[i].promise := outcome];
      pending := pending[..i] + pending[i + 1..];
    }

    method FailPending()
      modifies this
      ensures View() == FailAll(old(View()))
    {
      while pending != []
        invariant FailAll(View()) == FailAll(old(View()))
        decreases |pending|
      {
        SettlePending(pending[0].key, Rejected);
      }
    }

    /** Replay in Map order; `writes` frames go through before the socket refuses one. */
    method Flush(writes: nat)
      requires Shape(pending)
      modifies this
      ensures View() == FlushRest(old(View()), [], old(pending), writes)
    {
      var i: nat, left: nat := 0, writes;
      while i < |pending|
        invariant i <= |pending| && Shape(pending)
        invariant FlushRest(View(), pending[..i], pending[i..], left) ==
                  FlushRest(old(View()), [], old(pending), writes)
        decreases |pending| - i
      {
        if left == 0 {
          assert pending[..i] + pending[i..] == pending;
          return;
        }
        i := ReplayNext(i, left);
        left := left - 1;
      }
      assert pending[..i] + [] == pending;
    }

    /** One turn: entry `i` is replayed, and the replay goes on behind it. */
    method ReplayNext(i: nat, ghost left: nat) returns (next: nat)
      requires i < |pending| && Shape(pending) && left > 0
      modifies this
      ensures Shape(pending) && next <= |pending| && |pending| - next < |old(pending)| - i
      ensures FlushRest(View(), pending[..next], pending[next..], left - 1) ==
              FlushRest(old(View()), old(pending)[..i], old(pending)[i..], left)
    {
      ghost var s := View();
      var stays := ReplayEntry(i);
      SlicesAfter(s.pending, i, stays);
      FlushUnfolds(s, pending, s.pending[..i], s.pending[i..], left);
      next := if stays then i + 1 else i;
    }

    /** Write one pending frame; it stays only if it needs a receipt. */
    method ReplayEntry(i: nat) returns (stays: bool)
      requires i < |pending| && Shape(pending)
      modifies this
      ensures Shape(pending) && stays == AwaitsReceipt(old(View()), old(pending)[i].message)
      ensures var s := old(View()).(wire := old(wire) + [old(pending)[i].message]);
              View() == if stays then s else Settle(s, i, Resolved)
    {
      wire := wire + [pending[i].message];
      stays := pending[i].message.RunEvent? && receipts;
      if !stays {
        KeyIsAt(pending, i);
        RemovalKeepsShape(pending, i);
        SettlePending(pending[i].key, Resolved);
      }
    }

    method SettleReadiness(ok: bool)
      modifies this`ready
      ensures ready == SettleReady(old(ready), ok)
    {
      if ready == Unsettled { ready := if ok then IsReady else FailedReady; }
    }

    /**
     `writes` frames go through, hello among them; the write that throws ends the replay, or the handler if
     it is hello's.
     */
    method OnOpen(writes: nat)
      requires Transport.Valid(View()) && Possible(View(), ActOpen(writes))
      modifies this
      ensures View() == Transport.OnOpen(old(View()), writes) && Transport.Valid(View())
    {
      OpenKeepsValid(View(), writes);
      if closed { socket := Down; return; }
      Greet(writes > 0);
      if writes == 0 { return; }
      Flush(writes - 1);
      SettleReadiness(true);
    }

    method Greet(wrote: bool)
      modifies this
      ensures View() == if wrote then Greeted(old(View()))
                        else old(View()).(socket := Open, connectedOnce := true, retries := 0)
    {
      socket, connectedOnce, retries := Open, true, 0;
      if wrote { wire := wire + [Hello]; }
    }

    /** What a terminal disconnect and `close` share before they reject what is pending. */
    method GiveUp()
      modifies this`socket, this`closed, this`ready
      ensures View() == GivenUp(old(View()))
    {
      closed, socket := true, Down;
      SettleReadiness(false);
    }

    method OnReceipt(runId: string, sequence: nat, accepted: bool)
      requires Transport.Valid(View())
      modifies this
      ensures View() == Transport.OnReceipt(old(View()), runId, sequence, accepted) && Transport.Valid(View())
    {
      SettleKeyKeepsValid(View(), EventKey(runId, sequence), if accepted then Resolved else Rejected);
      SettlePending(EventKey(runId, sequence), if accepted then Resolved else Rejected);
    }

    method OnClose(code: nat)
      requires Transport.Valid(View()) && Possible(View(), ActClosed(code))
      modifies this
      ensures View() == Transport.OnClose(old(View()), code) && Transport.Valid(View())
      ensures closed <==> old(closed) || code == 1008 || !old(connectedOnce)
      ensures !closed ==> reconnectArmed && pending == old(pending) && settled == old(settled)
    {
      ClosedKeepsValid(View(), code);
      TransportLife.CloseDecides(View(), code);
      socket := Down;
      if closed { return; }
      if !connectedOnce || code == POLICY_VIOLATION {
        GiveUp();
        FailPending();
        return;
      }
      retries := retries + 1;
      reconnectArmed := true;
    }

    method OnReconnectTimer()
      requires Transport.Valid(View()) && Possible(View(), ActReconnect)
      modifies this
      ensures View() == OnReconnect(old(View())) && Transport.Valid(View())
    {
      reconnectArmed := false;
      if closed { return; }
      socket := Connecting;
    }

    method OnRetentionTimer(key: string)
      requires Transport.Valid(View()) && Possible(View(), ActTimeout(key))
      modifies this
      ensures View() == OnRetentionTimeout(old(View()), key) && Transport.Valid(View())
    {
      SettleKeyKeepsValid(View(), key, Rejected);
      SettlePending(key, Rejected);
    }

    method Close()
      requires Transport.Valid(View())
      modifies this
      ensures View() == Transport.Close(old(View())) && Transport.Valid(View()) && pending == []
    {
      ShutdownKeepsValid(View());
      reconnectArmed := false;
      GiveUp();
      ghost var s := View();
      FailPending();
      EmptyAfterFailing(s);
    }

    /** `wrote` is the outcome of the one write this call may attempt. */
    method Send(message: Message, bestEffort: bool, wrote: bool) returns (result: SendResult)
      requires Transport.Valid(View())
      modifies this
      ensures View() == Transport.Send(old(View()), message, bestEffort, wrote).0
      ensures result == Transport.Send(old(View()), message, bestEffort, wrote).1
      ensures Transport.Valid(View())
    {
      SendKeepsValid(View(), message, bestEffort, wrote);
      if bestEffort && !(message.RunEvent? && message.eventType == OutputEvent) { return Threw; }
      if closed { return Threw; }
      if bestEffort {
        if HasKey(pending, EventKey(message.runId, message.sequence)) { return Threw; }
        result := WriteOptional(message, wrote);
        return;
      }
      if message == Heartbeat {
        result := WriteOptional(message, wrote);
        return;
      }
      result := Enqueue(message, wrote);
    }

    /** The part of `send` that occupies replay capacity. */
    method Enqueue(message: Message, wrote: bool) returns (result: SendResult)
      modifies this
      ensures View() == Transport.Enqueue(old(View()), message, wrote).0
      ensures result == Transport.Enqueue(old(View()), message, wrote).1
    {
      if |pending| >= CAPACITY { return Threw; }
      var key := if message.RunEvent? then EventKey(message.runId, message.sequence) else FrameKey(counter);
      if !message.RunEvent? { counter := counter + 1; }
      var i := IndexOf(pending, key);
      var retained := message.RunEvent? && message.eventType == RetainedEvent;
      if i < |pending| && (retained || IsRetention(pending[i].message)) { return Threw; }
      result := Promised(promises);
      Install(Entry(key, message, promises, retained && receipts), wrote);
    }

    /** The promise constructor of `send`: record the entry, then write it if the socket is open. */
    method Install(entry: Entry, wrote: bool)
      modifies this
      ensures View() == Accept(old(View()), entry, wrote)
    {
      Record(entry);
      if socket == Open && wrote { NoteWritten(entry); }
    }

    method NoteWritten(entry: Entry)
      modifies this`wire, this`pending, this`settled
      ensures var s := old(View()).(wire := old(wire) + [entry.message]);
              View() == if AwaitsReceipt(s, entry.message) then s else SettleKey(s, entry.key, Resolved)
    {
      wire := wire + [entry.message];
      if !(entry.message.RunEvent? && receipts) { SettlePending(entry.key, Resolved); }
    }

    /** `pending.set`: a Map keeps the position of a key it already has. */
    method Record(entry: Entry)
      modifies this`pending, this`lost, this`promises
      ensures View() == Put(old(View()).(promises := old(promises) + 1), entry)
    {
      promises := promises + 1;
      var i := IndexOf(pending, entry.key);
      if i < |pending| {
        lost := lost + {pending[i].promise};
        pending := pending[i := entry];
      } else {
        pending := pending + [entry];
      }
    }

    method WriteOptional(message: Message, wrote: bool) returns (result: SendResult)
      modifies this`wire
      ensures (View(), result) == WriteIfOpen(old(View()), message, wrote)
    {
      if socket != Open { return Done; }
      if !wrote { return Threw; }
      wire := wire + [message];
      result := Done;
    }
  }
}
