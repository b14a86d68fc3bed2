/**
 The closure variables of `startProcess` and of the owned invocation in the process adapter
 (apps/artood/src/process-adapter.ts:456-717, 857-920), grouped into what concerns the child,
 the guardian and the run, with one method per event callback and per call. The ghost `state`
 follows ProcessLifecycle; `Valid` ties the variables to it and carries its invariant, so that every
 method can say what its step means for the real processes and for the events of the run.
 */
module OwnedProcess {
  import opened Common
  import opened ProcessLifecycle

  /** What `control.stop` does before it awaits: nothing is left, a kill, the natural end, or it throws. */
  datatype StopStep = Closed | Requested | AwaitsEnd | Throws

  class OwnedProcess {
    const posix: bool
    var child: Child
    var guardian: Guardian
    var run: Outcome
    var closedFacts: Option<Facts>
    ghost var state: State

    ghost predicate Valid()
      reads this
    {
      && state.posix == posix && state.child == child && state.guardian == guardian
      && state.out == run && state.inv.closedFacts == closedFacts && Inv(state)
    }

    /** The variables as `startProcess` declares them, just after the call to spawn. */
    constructor Spawned(onPosix: bool, ghost before: State, ok: bool)
      requires Inv(before) && before.posix == onPosix && before.out == Initial(onPosix).out
               && Possible(before, Spawn(ok))
      ensures posix == onPosix && Valid() && state == Apply(before, Spawn(ok))
    {
      posix, child, guardian, run, closedFacts := onPosix, NO_CHILD.(pid := ok), NO_GUARDIAN, Initial(onPosix).out,
          None;
      state := OnSpawn(before, ok);
      new;
      StepKeepsInv(before, Spawn(ok));
    }

    // ---------------------------------------------------------------- helpers of the callbacks

    method StartTermination()
      modifies this`child
      ensures child == BeginTermination(old(child))
    {
      if child.termination == NotBegun {
        if child.pid { child := child.(termination := Pending); }
        else { child := child.(termination := Resolved, groupAbsent := true); }
      }
    }

    method Emit(e: Event)
      modifies this`run
      ensures run == Push(old(run), e)
    {
      if !run.ended { run := run.(emitted := run.emitted + [e]); }
    }

    method Finish(ending: Ending)
      modifies this`run
      ensures run == FinishWith(old(run), ending)
    {
      run := run.(closer := Finished);
      if run.finalized { return; }
      Emit(Output);
      Emit(Measured);
      Emit(Terminal(ending));
      run := run.(finalized := true, ended := true);
    }

    method CompleteRun()
      modifies this`run
      ensures run == Complete(old(run))
    {
      run := run.(closer := Finished, finalized := true);
      Emit(Artifact);
      Emit(Measured);
      Emit(Terminal(Completed));
      run := run.(ended := true);
    }

    /**
     The tail of the `close` handler: it ends an open run with one terminal event, the right one, and says
     no more.
     */
    method ConcludeRun(code: int, failed: bool, artifacts: bool)
      modifies this`run
      ensures run == Conclude(old(run), code, failed, artifacts)
      ensures EmittedOk(old(run)) && !old(run).finalized ==>
                && EmittedOk(run) && run.ended && |run.emitted| >= |old(run).emitted| + 2
                && run.emitted[|run.emitted| - 1] == Terminal(EndingOf(old(run).stopReason, code, failed, artifacts))
    {
      if EmittedOk(run) && !run.finalized { Concludes(run, code, failed, artifacts); }
      run := run.(providerFailed := failed, collected := artifacts);
      if run.stopReason {
        Finish(Cancelled);
      } else if code == 0 {
        if failed || !artifacts { Finish(FailedRun); } else { CompleteRun(); }
      } else {
        Finish(FailedRun);
      }
    }

    // ---------------------------------------------------------------- callbacks

    /** The started event always goes out: a child that has just spawned cannot have ended its run. */
    method OnSpawnEvent()
      requires Valid() && Possible(state, ChildSpawnEvent)
      modifies this
      ensures Valid() && state == Apply(old(state), ChildSpawnEvent)
      ensures run.emitted == old(run).emitted + [Started] && !run.ended
    {
      child := child.(spawned := true);
      Emit(Started);
      StepKeepsInv(state, ChildSpawnEvent);
      state := Apply(state, ChildSpawnEvent);
    }

    /** An error before the spawn event counts as a failed spawn exactly when no child was created. */
    method OnErrorEvent()
      requires Valid() && Possible(state, ChildErrorEvent)
      modifies this
      ensures Valid() && state == Apply(old(state), ChildErrorEvent)
      ensures child.spawnFailed <==> state.truth.child == Absent
    {
      child := child.(spawnFailed := !child.pid);
      StepKeepsInv(state, ChildErrorEvent);
      state := Apply(state, ChildErrorEvent);
    }

    method OnExitEvent()
      requires Valid() && Possible(state, ChildExitEvent)
      modifies this
      ensures Valid() && state == Apply(old(state), ChildExitEvent)
    {
      child := child.(exitSeen := true);
      if posix && child.pid { StartTermination(); }
      StepKeepsInv(state, ChildExitEvent);
      state := Apply(state, ChildExitEvent);
    }

    method OnCloseEvent(code: int, failed: bool, artifacts: bool)
      requires Valid() && Possible(state, ChildCloseEvent(failed, artifacts)) && code == CloseCode(state)
      modifies this
      ensures Valid() && state == OnChildClose(old(state), failed, artifacts)
    {
      ClosingKeepsInv(state, failed, artifacts);
      state := OnChildClose(state, failed, artifacts);
      child := child.(closeSeen := true);
      if posix && child.pid {
        StartTermination();
        run := run.(closer := AwaitingGroup);
      } else if run.stopReason {
        run := run.(closer := AwaitingStop);
      } else {
        ConcludeRun(code, failed, artifacts);
      }
    }

    /** The group counts as gone exactly when its termination succeeded, and on POSIX it then is. */
    method OnTermination(ok: bool)
      requires Valid() && Possible(state, TerminationSettles(ok))
      modifies this
      ensures Valid() && state == Apply(old(state), TerminationSettles(ok))
      ensures (child.groupAbsent <==> ok) && (posix && child.groupAbsent ==> !state.truth.group)
    {
      if ok { child := child.(groupAbsent := true); }
      child := child.(termination := if ok then Resolved else Failed);
      StepKeepsInv(state, TerminationSettles(ok));
      state := Apply(state, TerminationSettles(ok));
    }

    /** The `close` handler after the termination it awaited. */
    method ContinueClose(code: int, failed: bool, artifacts: bool)
      requires Valid() && Possible(state, CloseContinues(failed, artifacts)) && code == CloseCode(state)
      modifies this
      ensures Valid() && state == Apply(old(state), CloseContinues(failed, artifacts))
    {
      StepKeepsInv(state, CloseContinues(failed, artifacts));
      state := Apply(state, CloseContinues(failed, artifacts));
      if child.termination == Failed { run := run.(closer := Finished); }
      else if run.closer == AwaitingStop { Finish(Cancelled); }
      else { ConcludeRun(code, failed, artifacts); }
    }

    /** After the spawn event: start the guardian unless the run is already over. */
    method ContinueStartup(ok: bool)
      requires Valid() && Possible(state, StartupContinues(ok))
      modifies this
      ensures Valid() && state == Apply(old(state), StartupContinues(ok))
      ensures guardian.attempted <==> !run.finalized
      ensures state.truth.guardians == if !run.finalized && ok then 1 else 0
    {
      if !run.finalized && child.pid { guardian := NO_GUARDIAN.(attempted := true, pid := ok); }
      StepKeepsInv(state, StartupContinues(ok));
      state := Apply(state, StartupContinues(ok));
    }

    /**
     Set the stop reason and kill: a startup abort, a failed guardian, a stop of a running child. Termination
     is under way afterwards, and whatever the `close` handler finds, an open run ends cancelled.
     */
    method Kill(ghost a: Action)
      requires Valid() && Possible(state, a) && Kills(a)
      modifies this
      ensures Valid() && state == RequestKill(old(state))
      ensures run.emitted == old(run).emitted && (child.termination != NotBegun || run.finalized)
      ensures !run.finalized ==> forall code, failed, artifacts ::
              EndedAs(Conclude(run, code, failed, artifacts), Cancelled)
    {
      run := run.(stopReason := true);
      if !run.finalized { StartTermination(); }
      KillingKeepsInv(state, a);
      state := RequestKill(state);
    }

    // ---------------------------------------------------------------- closure and receipts

    /** `absent` is what a signal-zero probe of the guardian's group would answer. */
    method ObserveFullClosure(absent: bool) returns (closed: bool)
      requires Valid() && Possible(state, Observe(absent))
      modifies this
      ensures Valid() && state == OnObserve(old(state), absent)
      ensures closed <==> ChildClosed(child) && GuardianClosed(guardian)
      ensures closed ==> closedFacts.Some? && AllGone(posix, state.truth)
    {
      closed := AllObservedClosed(absent);
      if closed { closedFacts := Some(PhysicalFacts(child, guardian)); }
      ObservedIsTrue(state, absent);
      state := OnObserve(state, absent);
    }

    method AllObservedClosed(absent: bool) returns (closed: bool)
      modifies this`guardian
      ensures guardian == Probed(child, old(guardian), absent)
      ensures closed <==> ChildClosed(child) && GuardianClosed(guardian)
    {
      if !(NeverSpawned(child) || (child.exitSeen && child.closeSeen && child.groupAbsent)) { return false; }
      if !guardian.attempted || GuardianNeverSpawned(guardian) { return true; }
      if !guardian.exitSeen || !guardian.closeSeen || !guardian.clean || !guardian.pid { return false; }
      if !guardian.groupAbsent { guardian := guardian.(groupAbsent := absent); }
      return guardian.groupAbsent;
    }

    /**
     What the first segment of a stop does to the process: unless the facts are there it observes, and
     perhaps kills.
     */
    ghost predicate Began(before: State, step: StopStep, absent: bool)
      reads this
    {
      if before.inv.closedFacts.Some? then step.Closed? && state == before else
      var observed := OnObserve(before, absent);
      if step.Requested? then Possible(observed, StopRunning) && state == RequestKill(observed) else state == observed
    }

    /**
     `control.stop` up to its first await. `present` is what the probes of the child find, and `codeSet`
     says that an exit code or signal is known before the exit event.
     */
    method BeginStop(absent: bool, present: bool, codeSet: bool) returns (step: StopStep)
      requires Valid() && Possible(state, StopReceipt) && Possible(state, Observe(absent))
      requires present ==> state.truth.child == Alive
      modifies this
      ensures Valid() && Began(old(state), step, absent)
      ensures step.Closed? <==> closedFacts.Some?
      ensures step.AwaitsEnd? <==> closedFacts.None? && (child.exitSeen || child.closeSeen || codeSet)
      ensures step.Requested? <==>
                closedFacts.None? && !child.exitSeen && !child.closeSeen && !codeSet && child.spawned && present
      ensures step.Closed? ==> AllGone(posix, state.truth)
    {
      if closedFacts.Some? { return Closed; }
      var closed := ObserveFullClosure(absent);
      if closed { return Closed; }
      if child.exitSeen || child.closeSeen || codeSet { return AwaitsEnd; }
      if !(child.spawned && child.pid && present) { return Throws; }
      Kill(StopRunning);
      return Requested;
    }

    /**
     The receipt of `stopOwnedRun` after `control.stop` has returned or thrown: closed is said only when
     all is gone.
     */
    method StopOwnedRun() returns (receipt: Kind)
      requires Valid() && Possible(state, StopReceipt)
      modifies this`state
      ensures Valid() && state == Apply(old(state), StopReceipt) && receipt in state.receipts
      ensures receipt == if closedFacts.Some? then ConfirmedClosed else Uncertain
      ensures receipt == ConfirmedClosed ==> AllGone(posix, state.truth)
    {
      receipt := if closedFacts.Some? then ConfirmedClosed else Uncertain;
      StepKeepsInv(state, StopReceipt);
      state := Apply(state, StopReceipt);
    }
  }
}
