/**
 The node client (apps/artood/src/node-client.ts) on its own collections. Each method
 is the code of one handler between two awaits; it returns where the handler waits
 next and the frame and adapter call it makes. Every method is proved to perform the
 move of NodeRun on its own run and to leave every other run's entries alone.
 */
module NodeClient {
  import opened Common
  import opened NodeRun
  import NodeAnswers

  type RunId = string

  class NodeClient {
    var runs: map<RunId, TaskId>
    var starting: map<RunId, TaskId>
    var finished: set<RunId>
    var launchBindings: map<RunId, Option<LaunchKey>>
    var physicalStarts: map<RunId, Physical>

    /** The entries of one run. */
    ghost function Entries(r: RunId): Shared
      reads this
    {
      Shared(
        if r in starting then Some(starting[r]) else None,
        if r in runs then Some(runs[r]) else None,
        r in finished,
        if r in launchBindings then Some(launchBindings[r]) else None,
        if r in physicalStarts then Some(physicalStarts[r]) else None)
    }

    twostate predicate OthersUnchanged(r: RunId)
      reads this
    {
      forall q: RunId | q != r :: Entries(q) == old(Entries(q))
    }

    constructor ()
      ensures forall r: RunId :: Entries(r) == Initial().shared
    {
      runs, starting, finished, launchBindings, physicalStarts := map[], map[], {}, map[], map[];
    }

    method OnRunStart(r: RunId, me: TaskId, c: CommandId, key: Option<LaunchKey>, valid: bool, plannable: bool)
      returns (next: Option<Pc>, reply: Option<Reply>)
      modifies this
      ensures Move(Entries(r), next, reply, NoCall) == OnStart(old(Entries(r)), me, c, key, valid, plannable)
      ensures reply == Some(Reply(StartHandler, c, Accept)) ==>
                NodeAnswers.StartVerdict(old(Entries(r)), key, valid, plannable) == NodeAnswers.Answers(Accept)
      ensures OthersUnchanged(r)
    {
      next, reply := None, None;
      if !valid { return None, Some(Reply(StartHandler, c, Reject(ProcessStartFailed))); }
      if r in physicalStarts {
        if key != Some(physicalStarts[r].key) { return None, Some(Reply(StartHandler, c, Reject(ProcessStartFailed))); }
        return Some(AwaitingReady(c)), None;
      }
      if r in starting || r in runs || r in finished {
        if r in launchBindings && launchBindings[r] != key {
          return None, Some(Reply(StartHandler, c, Reject(ProcessStartFailed)));
        }
        if key.Some? && r in starting { return Some(AwaitingStart(c, starting[r])), None; }
        return None, Some(Reply(StartHandler, c, Accept));
      }
      launchBindings := launchBindings[r := key];
      if key.Some? {
        physicalStarts := physicalStarts[r := Physical(me, key.value, None, None, false)];
        return Some(Preparing(c)), None;
      }
      starting := starting[r := me];
      if plannable { return Some(Materializing(c)), None; }
      return Some(RejectingStart), Some(Reply(StartHandler, c, Reject(ProcessStartFailed)));
    }

    method FinishStream(r: RunId)
      modifies this
      ensures Entries(r) == StreamFinally(old(Entries(r))).shared && OthersUnchanged(r)
    {
      finished := finished + {r};
      runs := runs - {r};
    }

    method ExecuteStart(r: RunId, me: TaskId, pc: Pc, input: Input)
      returns (next: Option<Pc>, reply: Option<Reply>, call: Call)
      requires LegacyPc(pc)
      modifies this
      ensures Move(Entries(r), next, reply, call) == ContinueLegacy(old(Entries(r)), me, pc, input)
      ensures OthersUnchanged(r)
    {
      next, reply, call := None, None, NoCall;
      match pc
      case Materializing(c) =>
        if input == Succeeded {
          next, call := Some(AdapterStarting(c)), StartWriter;
        } else {
          next, reply := Some(RejectingStart), Some(Reply(StartHandler, c, Reject(ProcessStartFailed)));
        }
      case AdapterStarting(c) =>
        if input == Succeeded {
          runs := runs[r := me];
          starting := starting - {r};
          next, reply := Some(Streaming), Some(Reply(StartHandler, c, Accept));
        } else {
          next, reply := Some(RejectingStart), Some(Reply(StartHandler, c, Reject(ProcessStartFailed)));
        }
      case RejectingStart =>
        starting := starting - {r};
        if r !in runs && r !in finished { launchBindings := launchBindings - {r}; }
      case Streaming =>
        if input == Succeeded { FinishStream(r); }
        next := Some(if input == Succeeded then ReportingEnd else StoppingAfterFailure);
      case StoppingAfterFailure =>
        if input == Succeeded { next := Some(ReportingFailure); } else { FinishStream(r); next := Some(ReportingEnd); }
      case ReportingFailure =>
        FinishStream(r);
        next := Some(ReportingEnd);
      case ReportingEnd =>
        starting := starting - {r};
    }

    method ExecutePhysicalStart(r: RunId, pc: Pc, input: Input)
      returns (next: Option<Pc>, reply: Option<Reply>, call: Call)
      requires PhysicalPc(pc) && r in physicalStarts
      modifies this
      ensures Move(Entries(r), next, reply, call) == ContinuePhysical(old(Entries(r)), pc, input)
      ensures OthersUnchanged(r)
    {
      next, reply, call := None, None, NoCall;
      var record := physicalStarts[r];
      match pc
      case Preparing(c) =>
        if !input.PreparationFailed? {
          next, call := Some(OwnedStarting(c)), StartOwnedWriter;
        } else {
          var kind := if input.closed then StartCancelled else if input.entered then StartUncertain else StartRejected;
          physicalStarts := physicalStarts[r := record.(outcome := Some(kind), confirmedClosed := input.closed)];
          reply := Some(Reply(StartHandler, c, Reject(ProcessStartFailed)));
        }
      case OwnedStarting(c) =>
        if !input.StartupFailed? {
          physicalStarts := physicalStarts[r := record.(outcome := Some(Started), execution := Some(Execution(true)))];
          next, reply := Some(OwnedStreaming), Some(Reply(StartHandler, c, Accept));
        } else {
          var closed := input.receipt != UnconfirmedStartup;
          physicalStarts := physicalStarts[r := record.(
            outcome := Some(if closed then StartRejected else StartUncertain), confirmedClosed := closed)];
          reply := Some(Reply(StartHandler, c, Reject(ProcessStartFailed)));
        }
      case OwnedStreaming =>
        if input == Succeeded {
          ConfirmClosed(r);
          next := Some(OwnedStreaming);
        } else {
          if record.execution.Some? { record := record.(execution := Some(Execution(false))); }
          physicalStarts := physicalStarts[r := Compact(record)];
        }
    }

    /** `stopPhysical` once its receipt proves closure. */
    method ConfirmClosed(r: RunId)
      requires r in physicalStarts
      modifies this
      ensures Entries(r) ==
              old(Entries(r)).(physical := Some(Compact(old(physicalStarts[r]).(confirmedClosed := true))))
      ensures OthersUnchanged(r)
    {
      physicalStarts := physicalStarts[r := Compact(physicalStarts[r].(confirmedClosed := true))];
    }

    method OnRunStop(r: RunId, c: CommandId) returns (next: Pc)
      ensures Wait(Entries(r), next) == OnStop(Entries(r), c)
    {
      next := if r in physicalStarts then StopAwaitingReady(c)
              else StopAwaitingStart(c, if r in starting then Some(starting[r]) else None);
    }

    method ContinueRunStop(r: RunId, pc: Pc, input: Input) returns (next: Option<Pc>, reply: Option<Reply>)
      requires StopPc(Entries(r), pc)
      modifies this
      ensures Move(Entries(r), next, reply, NoCall) == ContinueStop(old(Entries(r)), pc, input)
      ensures if NodeAnswers.StopCallsOut(old(Entries(r)), pc) then reply == None && next.Some?
              else next == None &&
                   reply == Some(Reply(StopHandler, pc.command, NodeAnswers.StopVerdict(old(Entries(r)), pc, input)))
      ensures OthersUnchanged(r)
    {
      next, reply := None, None;
      match pc
      case StopAwaitingStart(c, _) =>
        if r in runs {
          next := Some(StoppingAdapter(c, runs[r]));
        } else {
          finished := finished + {r};
          reply := Some(Reply(StopHandler, c, Accept));
        }
      case StoppingAdapter(c, _) =>
        reply := Some(Reply(StopHandler, c, if input == Succeeded then Accept else Reject(ProcessExited)));
      case StopAwaitingReady(c) =>
        if physicalStarts[r].confirmedClosed {
          reply := Some(Reply(StopHandler, c, Accept));
        } else if physicalStarts[r].execution == None {
          reply := Some(Reply(StopHandler, c, Reject(ProcessStartFailed)));
        } else {
          next := Some(StoppingOwned(c));
        }
      case StoppingOwned(c) =>
        if input == Succeeded {
          ConfirmClosed(r);
          reply := Some(Reply(StopHandler, c, Accept));
        } else {
          reply := Some(Reply(StopHandler, c, Reject(ProcessStartFailed)));
        }
    }

    method ContinueRunResume(r: RunId, pc: Pc, input: Input) returns (next: Option<Pc>, reply: Option<Reply>)
      requires ResumePc(Entries(r), pc)
      modifies this
      ensures Move(Entries(r), next, reply, NoCall) == ContinueResume(old(Entries(r)), pc, input)
      ensures next == None ==>
                reply == Some(Reply(ResumeHandler, pc.command, NodeAnswers.ResumeVerdict(old(Entries(r)), pc, input)))
      ensures OthersUnchanged(r)
    {
      next, reply := None, None;
      match pc
      case ResumeAwaitingStart(c, _) =>
        reply := Some(Reply(ResumeHandler, c, if r in runs then Accept else Reject(ProcessExited)));
      case ResumeAwaitingReady(c) =>
        if physicalStarts[r].execution.Some? {
          next := Some(Inspecting(c));
        } else {
          var code := if physicalStarts[r].confirmedClosed then ProcessExited else ProcessStartFailed;
          reply := Some(Reply(ResumeHandler, c, Reject(code)));
        }
      case Inspecting(c) =>
        var closed, running := input == Inspected(StatusClosed), input == Inspected(StatusRunning);
        if closed { physicalStarts := physicalStarts[r := physicalStarts[r].(confirmedClosed := true)]; }
        var record := physicalStarts[r];
        if (closed || running) && record.execution.Some? && record.execution.value.deliveryPending {
          reply := Some(Reply(ResumeHandler, c, Accept));
        } else if closed {
          physicalStarts := physicalStarts[r := Compact(record)];
          reply := Some(Reply(ResumeHandler, c, Reject(ProcessExited)));
        } else {
          reply := Some(Reply(ResumeHandler, c, Reject(ProcessStartFailed)));
        }
    }
  }
}
