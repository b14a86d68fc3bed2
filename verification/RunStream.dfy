/**
 `streamStartedRun` as the source runs it: a counter, the last retention outcome and the
 stop flags as variables that each send and each stop changes. Every method is proved to
 do what the function of the same name in NodeStream says, exceptions included.
 */
module RunStream {
  import opened Common
  import opened NodeStream
  import StreamFailure

  class RunStream {
    const mode: Mode
    const world: Env
    var sequence: nat
    var retentionReported: Option<Outcome>
    var ownedStopAttempted: bool
    var confirmedClosed: bool
    /** Everything sent or attempted so far. */
    var log: seq<Entry>

    ghost function View(): State
      reads this
    {
      State(sequence, retentionReported, ownedStopAttempted, confirmedClosed, log)
    }

    constructor (worktree: bool, typedRetention: bool, physical: bool, answers: Env)
      ensures mode == Mode(worktree, typedRetention, physical) && world == answers && View() == Initial()
    {
      mode, world := Mode(worktree, typedRetention, physical), answers;
      sequence, retentionReported, ownedStopAttempted, confirmedClosed, log := 0, None, false, false, [];
    }

    method Send(e: Entry)
      modifies this`sequence, this`log
      ensures View() == RunEvent(old(View()), e)
    {
      sequence := sequence + 1;
      log := log + [e];
    }

    method ReportRetainedWorkspace(outcome: Outcome) returns (threw: bool)
      modifies this
      ensures Result(View(), threw) == Report(mode, world, old(View()), outcome)
    {
      if !mode.worktree { return false; }
      var corrects := retentionReported == Some(Completed) && outcome == IncompleteDelivery;
      if retentionReported.Some? && !corrects { return false; }
      retentionReported := Some(outcome);
      if mode.typed {
        var ok := (world.succeeds)(|log|);
        Send(Retained(outcome, sequence, ok));
        if !ok && outcome == Completed { return true; }
      }
      var sent := (world.succeeds)(|log|);
      Send(Diagnostic(outcome, sequence, sent));
      if !mode.typed && !sent && outcome == Completed {
        retentionReported := None;
        return true;
      }
      return false;
    }

    method NoticeClosure()
      modifies this`confirmedClosed, this`log
      ensures View() == Notice(world, old(View()))
    {
      if !confirmedClosed && (world.closes)(|log|) {
        log := log + [ClosedElsewhere];
        confirmedClosed := true;
      }
    }

    /** The stop awaited is this stream's own, or one another handler has under way; only its outcome shows. */
    method StopPhysical() returns (threw: bool)
      modifies this`confirmedClosed, this`log
      ensures Result(View(), threw) == NodeStream.StopPhysical(world, old(View()))
    {
      NoticeClosure();
      if confirmedClosed { return false; }
      var ok := (world.succeeds)(|log|);
      log := log + [Stop(ok)];
      confirmedClosed := ok;
      return !ok;
    }

    method StopLegacyRun() returns (threw: bool)
      modifies this`log
      ensures Result(View(), threw) == StopLegacy(world, old(View()))
    {
      threw := !(world.succeeds)(|log|);
      log := log + [Stop(!threw)];
    }

    /** One turn of the `for await` loop. */
    method HandleEvent(item: Item) returns (threw: bool)
      modifies this
      ensures Result(View(), threw) == Handle(mode, world, old(View()), item)
    {
      if item.Breaks? { return true; }
      if item.Terminal? {
        if mode.physical {
          ownedStopAttempted := true;
          threw := StopPhysical();
          if threw { return; }
        }
        threw := ReportRetainedWorkspace(item.phase);
        if threw { return; }
      }
      var ok := (world.succeeds)(|log|);
      Send(Forwarded(item, sequence, ok));
      return !ok;
    }

    method ForwardEvents(items: seq<Item>) returns (threw: bool)
      modifies this
      ensures Result(View(), threw) == Consume(mode, world, old(View()), items)
    {
      var i := 0;
      assert items[0..] == items;
      while i < |items|
        invariant i <= |items|
        invariant Consume(mode, world, View(), items[i..]) == Consume(mode, world, old(View()), items)
        decreases |items| - i
      {
        assert items[i..][1..] == items[i + 1..];
        threw := HandleEvent(items[i]);
        if threw { return; }
        i := i + 1;
      }
      return false;
    }

    /** The `catch` block: nothing is reported unless the writer is known to have stopped. */
    method HandleError()
      modifies this
      ensures View() == Catch(mode, world, old(View()))
      ensures StreamFailure.NoFailure(old(log)) ==>
                if StopAfterError(mode, world, old(View())).threw then StreamFailure.NoFailure(log)
                else |log| > 0 && StreamFailure.OnlyFailure(log, |log| - 1)
    {
      var threw;
      if StreamFailure.NoFailure(log) { StreamFailure.CatchReports(mode, world, View()); }
      if !mode.physical {
        threw := StopLegacyRun();
      } else if !ownedStopAttempted {
        ownedStopAttempted := true;
        threw := StopPhysical();
      } else {
        NoticeClosure();
        threw := !confirmedClosed;
      }
      if threw { return; }
      threw := ReportRetainedWorkspace(IncompleteDelivery);
      Send(FailedLifecycle(sequence, (world.succeeds)(|log|)));
    }

    /** The `finally` block. */
    method Finish()
      modifies this
      ensures View() == Finally(mode, world, old(View()))
    {
      var threw;
      if mode.physical {
        NoticeClosure();
        if !confirmedClosed && !ownedStopAttempted { threw := StopPhysical(); }
      }
      threw := ReportRetainedWorkspace(Unconfirmed);
    }

    /** The `try` block. */
    method AcknowledgeAndForward(items: seq<Item>) returns (threw: bool)
      requires View() == Initial()
      modifies this
      ensures Result(View(), threw) == Attempt(mode, world, items)
    {
      var ok := (world.succeeds)(|log|);
      log := log + [Ack(ok)];
      assert log == [Ack(ok)];
      if !ok { return true; }
      threw := ForwardEvents(items);
    }

    method Run(items: seq<Item>)
      requires View() == Initial()
      modifies this
      ensures View() == Stream(mode, world, items)
    {
      var threw := AcknowledgeAndForward(items);
      if threw { HandleError(); }
      Finish();
    }
  }
}
