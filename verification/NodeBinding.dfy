/**
 The server's binding object (apps/server/src/node-binding.ts) on its own maps and its
 serialized `tail`. Each method is the code between two awaits, or one inbound frame or
 timer. The ghost `state` follows StopDispatch; `Valid` ties every field to it and carries its invariant.
 */
module NodeBinding {
  import opened StopDispatch

  class NodeBinding {
    var closed: bool
    var pendingStops: map<CommandId, RunId>
    var timers: set<CommandId>
    var stoppingRuns: map<RunId, CommandId>
    /** Work not finished yet; the head is running. */
    var tail: seq<Work>
    /** The promises handed out. */
    var stops: map<CommandId, Stop>
    var received: nat
    ghost var state: State

    ghost predicate Valid()
      reads this
    {
      && closed == state.closed && pendingStops == state.pendingStops && timers == state.timers
      && stoppingRuns == state.stoppingRuns && stops == state.stops && received == |state.eventAt|
      && state.done <= |state.chain| && tail == state.chain[state.done..] && Inv(state)
    }

    constructor ()
      ensures Valid() && state == Initial()
    {
      closed, pendingStops, timers, stoppingRuns, tail, stops, received := false, map[], {}, map[], [], map[], 0;
      state := Initial();
    }

    /** `reject` and `resolve` on a promise that may already be settled. */
    method SettlePromise(c: CommandId, outcome: Promise)
      modifies this`stops
      ensures stops == SettleStop(old(stops), c, outcome)
    {
      if c in stops && stops[c].promise == Pending { stops := stops[c := stops[c].(promise := outcome)]; }
    }

    /** `dispatchRunStop` up to the ownership query; a closed binding refuses at once. */
    method DispatchRunStop(run: RunId) returns (refused: bool)
      requires Valid()
      modifies this`state
      ensures Valid() && state == OnDispatch(old(state), run)
      ensures if refused then old(state.nextCall) in state.results else old(state.nextCall) in state.calls
    {
      refused := closed;
      StepKeepsInv(state, Dispatch(run));
      state := OnDispatch(state, run);
    }

    /** After the ownership query: join the stop already under way for this run, or create one and send it. */
    method AfterOwnership(call: CallId, run: RunId, owns: bool, command: CommandId) returns (send: bool)
      requires Valid() && Possible(state, OwnershipKnown(call, owns, command)) && state.calls[call].run == run
      modifies this
      ensures Valid() && state == OnOwnership(old(state), call, owns, command)
      ensures send <==> owns && run !in old(stoppingRuns)
    {
      send := owns && run !in stoppingRuns;
      if send {
        stops := stops[command := Stop(Pending, run, call)];
        timers := timers + {command};
        pendingStops := pendingStops[command := run];
        stoppingRuns := stoppingRuns[run := command];
      }
      StepKeepsInv(state, OwnershipKnown(call, owns, command));
      state := OnOwnership(state, call, owns, command);
    }

    method AfterSend(ghost call: CallId, command: CommandId, ok: bool)
      requires Valid() && Possible(state, SendReturned(call, ok)) && state.calls[call].command == command
      modifies this
      ensures Valid() && state == OnSent(old(state), call, ok)
    {
      if !ok && command in pendingStops { SettlePromise(command, Rejected); }
      StepKeepsInv(state, SendReturned(call, ok));
      state := OnSent(state, call, ok);
    }

    /** The owner's `finally`, and the outcome every waiting call reports. */
    method AfterSettled(ghost call: CallId, command: CommandId, owner: bool) returns (ok: bool)
      requires Valid() && Possible(state, CallReturns(call))
      requires state.calls[call].command == command && owner == state.calls[call].Awaiting?
      modifies this
      ensures Valid() && state == OnReturn(old(state), call) && ok == (stops[command].promise == Resolved)
    {
      ok := stops[command].promise == Resolved;
      if owner { Forget(command); }
      StepKeepsInv(state, CallReturns(call));
      state := OnReturn(state, call);
    }

    method Forget(command: CommandId)
      requires command in stops
      modifies this`timers, this`pendingStops, this`stoppingRuns
      ensures timers == old(timers) - {command} && pendingStops == old(pendingStops) - {command}
      ensures stoppingRuns == old(stoppingRuns) - {stops[command].run}
    {
      timers := timers - {command};
      pendingStops := pendingStops - {command};
      stoppingRuns := stoppingRuns - {stops[command].run};
    }

    method OnStopTimer(command: CommandId)
      requires Valid() && Possible(state, TimerFires(command))
      modifies this
      ensures Valid() && state == OnTimer(old(state), command)
    {
      pendingStops := pendingStops - {command};
      timers := timers - {command};
      SettlePromise(command, Rejected);
      StepKeepsInv(state, TimerFires(command));
      state := OnTimer(state, command);
    }

    method ReceiveAck(command: CommandId, accepted: bool)
      requires Valid()
      modifies this
      ensures Valid() && state == OnAck(old(state), command, accepted)
      ensures if old(closed) || command !in old(pendingStops) then tail == old(tail)
              else tail == old(tail) + [Settle(command, accepted)] && command !in pendingStops && command !in timers
    {
      if closed || command !in pendingStops { return; }
      pendingStops := pendingStops - {command};
      timers := timers - {command};
      tail := tail + [Settle(command, accepted)];
      StepKeepsInv(state, AckArrives(command, accepted));
      state := OnAck(state, command, accepted);
    }

    method ReceiveEvent()
      requires Valid()
      modifies this
      ensures Valid() && state == OnEvent(old(state))
    {
      if closed { return; }
      tail := tail + [Ingest(received)];
      received := received + 1;
      StepKeepsInv(state, EventArrives);
      state := OnEvent(state);
    }

    /** The head of `tail` finishes: an event has been ingested, or a stop learns what its ack said. */
    method AdvanceTail(owns: bool)
      requires Valid() && tail != []
      modifies this
      ensures Valid() && state == OnTail(old(state), owns) && tail == old(tail)[1..]
      ensures forall c | c in old(stops) && old(stops)[c].promise == Pending ::
                c in stops && (stops[c].promise == Resolved <==> owns && old(tail)[0] == Settle(c, true))
    {
      match tail[0] {
        case Ingest(_) =>
        case Settle(command, accepted) => SettlePromise(command, if owns && accepted then Resolved else Rejected);
      }
      tail := tail[1..];
      StepKeepsInv(state, TailAdvances(owns));
      state := OnTail(state, owns);
    }

    /** Reject every waiting stop, one map entry after the other, then clear the map. */
    method Close()
      requires Valid()
      modifies this
      ensures Valid() && state == OnClose(old(state))
    {
      assert forall c :: c in timers <==> c in pendingStops by {
        forall c ensures c in timers <==> c in pendingStops { assert CommandAgrees(state, c); }
      }
      RejectAll();
      closed, pendingStops := true, map[];
      StepKeepsInv(state, StopDispatch.Close);
      state := OnClose(state);
    }

    method RejectAll()
      requires timers == pendingStops.Keys
      modifies this`timers, this`stops
      ensures timers == {}
      ensures stops == map c | c in old(stops) ::
                if c in pendingStops && old(stops)[c].promise == Pending
                then old(stops)[c].(promise := Rejected) else old(stops)[c]
    {
      var rest := pendingStops.Keys;
      while rest != {}
        invariant rest <= pendingStops.Keys && timers == rest && stops.Keys == old(stops).Keys
        invariant forall c | c in stops ::
                    stops[c] == if c in pendingStops && c !in rest && old(stops)[c].promise == Pending
                                then old(stops)[c].(promise := Rejected) else old(stops)[c]
        decreases |rest|
      {
        var c :| c in rest;
        timers := timers - {c};
        SettlePromise(c, Rejected);
        rest := rest - {c};
      }
    }
  }
}
