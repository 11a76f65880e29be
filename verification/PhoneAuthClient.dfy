/** `PhoneAuthClient` itself: the fields of the source and its methods, each proved to
    move the client as `ClientSteps` says. */
module PhoneAuth {
  import opened Protocol
  import opened S = ClientSteps
  import P = ClientProofs

  class PhoneAuthClient {
    var state: State
    var requestId: nat
    var process: Option<Process>
    var released: seq<Process>
    var startSent: bool
    var ready: bool
    var committed: bool
    var cancelRequested: bool
    var withdrawing: bool
    var terminationAttempted: bool
    var failed: bool
    var startTimer: bool
    var lifetimeTimer: bool
    var graceTimer: bool
    ghost var verdicts: seq<Verdict>

    ghost function View(): Client
      reads this
    {
      S.Client(state, requestId, process, released, startSent, ready, committed, cancelRequested, withdrawing,
               terminationAttempted, failed, startTimer, lifetimeTimer, graceTimer, verdicts)
    }

    constructor ()
      ensures View() == INITIAL && S.Inv(View())
    {
      state, requestId, process, released := State.Idle, 0, None, [];
      startSent, ready, committed, cancelRequested, withdrawing := false, false, false, false, false;
      terminationAttempted, failed, startTimer, lifetimeTimer, graceTimer := false, false, false, false, false;
      verdicts := [];
    }

    predicate IsPending()
      reads this
      ensures IsPending() == S.Pending(View())
    {
      state.Starting? || state.Waiting? || state.Cancelling?
    }

    predicate HelperRuns()
      reads this
      ensures HelperRuns() == S.Alive(View())
    {
      process.Some? && !process.value.status.NotRunning?
    }

    method ReleaseHelper()
      modifies this`process, this`released
      ensures View() == S.Release(old(View()))
    {
      if process.Some? {
        released := released + [S.Close(process.value)];
        process := None;
      }
    }

    method StopTimers()
      modifies this`startTimer, this`lifetimeTimer, this`graceTimer
      ensures View() == S.SetTimers(old(View()), false, false, false, terminationAttempted)
    {
      startTimer, lifetimeTimer, graceTimer := false, false, false;
    }

    method Finish()
      modifies this
      ensures View() == S.Finish(old(View()))
    {
      state := State.Finished;
      StopTimers();
      ReleaseHelper();
    }

    ghost method Judge(signal: Signal)
      modifies this`verdicts
      ensures verdicts == old(verdicts) + [Verdict(requestId, signal)]
    {
      verdicts := verdicts + [Verdict(requestId, signal)];
    }

    /** `finish` and the signal after it. */
    method Conclude(signal: Signal)
      modifies this
      ensures View() == S.Conclude(old(View()), signal).client
    {
      Judge(signal);
      Finish();
    }

    method Withdraw()
      modifies this
      ensures View() == S.Withdraw(old(View()))
    {
      if withdrawing || process.None? {
        return;
      }
      withdrawing := true;
      if startSent {
        process := Some(S.Write(process.value, CancelLine(requestId)));
      }
      process := Some(S.Close(process.value));
      graceTimer := true;
    }

    method Fail() returns (signal: Option<Signal>)
      modifies this
      ensures Turn(View(), signal) == S.Fail(old(View()))
    {
      signal := None;
      if state.Finished? {
        return;
      }
      if !committed && HelperRuns() {
        failed := true;
        state := State.Cancelling;
        Withdraw();
        return;
      }
      if committed {
        signal := Some(LaunchUncertain);
      } else if cancelRequested {
        signal := Some(RequestCanceled);
      } else {
        signal := Some(PhoneUnavailable);
      }
      Conclude(signal.value);
    }

    method Cancel() returns (signal: Option<Signal>)
      modifies this
      ensures Turn(View(), signal) == S.Cancel(old(View()))
    {
      signal := None;
      if state.Finished? || committed || cancelRequested {
        return;
      }
      cancelRequested := true;
      state := State.Cancelling;
      if !HelperRuns() {
        signal := Some(RequestCanceled);
        Conclude(RequestCanceled);
        return;
      }
      Withdraw();
    }

    method Commit() returns (signal: Option<Signal>)
      modifies this
      ensures Turn(View(), signal) == S.Commit(old(View()))
    {
      signal := None;
      if !state.Waiting? || !ready || process.None? {
        return;
      }
      committed := true;
      state := State.Committed;
      lifetimeTimer := true;
      var written := process.value.writable;
      process := Some(S.Write(process.value, CommitLine(requestId)));
      assert View() == S.SendCommit(old(View()));
      if !written {
        signal := Fail();
      }
    }

    /** The first lines of `start`: a finished, uncommitted client becomes a new attempt. */
    method Forget()
      modifies this`withdrawing, this`terminationAttempted, this`failed
      ensures View() == S.Forget(old(View()))
    {
      withdrawing, terminationAttempted, failed := false, false, false;
    }

    method Clear()
      modifies this`startSent, this`ready, this`cancelRequested, this`withdrawing, this`terminationAttempted, this`failed
      ensures View() == S.Clear(old(View()))
    {
      startSent, ready, cancelRequested := false, false, false;
      Forget();
    }

    method Reset()
      modifies this
      ensures View() == S.Restart(old(View()))
    {
      if state.Finished? && !committed {
        state, requestId := State.Idle, requestId + 1;
        Clear();
      }
    }

    method Start(eligible: bool, usable: bool) returns (signal: Option<Signal>)
      modifies this
      ensures Turn(View(), signal) == S.Start(old(View()), eligible, usable)
    {
      signal := None;
      Reset();
      if !state.Idle? {
        return;
      }
      if !eligible || !usable {
        signal := Fail();
        return;
      }
      process := Some(Process(requestId, Launching, true, []));
      state := State.Starting;
      startTimer, lifetimeTimer := true, true;
    }

    /** The start line is written, or not if the channel is broken. */
    method SendStart()
      requires process.Some?
      modifies this`process, this`startTimer, this`state, this`startSent
      ensures View() == S.SendStart(old(View()))
    {
      startTimer, state, startSent := false, State.Waiting, true;
      process := Some(S.Write(process.value.(status := Running), StartLine(requestId)));
    }

    method OnStarted() returns (signal: Option<Signal>)
      modifies this
      ensures Turn(View(), signal) == S.Started(old(View()))
    {
      signal := None;
      if process.None? || !process.value.status.Launching? {
        return;
      }
      if state.Cancelling? {
        startTimer := false;
        process := Some(S.Close(process.value.(status := Running)));
        return;
      }
      var written := process.value.writable;
      SendStart();
      if written {
        signal := Some(WaitingForPhone);
      } else {
        signal := Fail();
      }
    }

    /** The body of the loop in `readMessages`, for one complete line. */
    method ReadReply(reply: Reply) returns (signal: Option<Signal>)
      modifies this
      ensures Turn(View(), signal) == S.ReadReply(old(View()), reply)
    {
      signal := None;
      if state.Finished? || process.None? {
        return;
      }
      if reply.Garbage? || reply.id != requestId {
        signal := Fail();
        return;
      }
      var event := reply.event;
      if event.ReadyReply? && state.Cancelling? {
        return;
      }
      if event.ReadyReply? && state.Waiting? && !ready {
        ready := true;
        signal := Some(ReadyToCommit);
      } else if event.CanceledReply? && !committed && IsPending() {
        signal := Some(if !cancelRequested && failed then PhoneUnavailable else RequestCanceled);
        Conclude(signal.value);
      } else if event.ExecutedReply? && state.Committed? && event.pid.Some? {
        if !S.ValidPid(event.pid.value) {
          signal := Fail();
          return;
        }
        signal := Some(LaunchAcknowledged);
        Conclude(LaunchAcknowledged);
      } else if event.ErrorReply? && event.hasMessage {
        if committed {
          signal := Fail();
        } else {
          signal := Some(if cancelRequested then RequestCanceled else PhoneUnavailable);
          Conclude(signal.value);
        }
      } else {
        signal := Fail();
      }
    }

    method OnShutdownGrace()
      modifies this
      ensures View() == S.Grace(old(View()))
    {
      if !graceTimer {
        return;
      }
      graceTimer := false;
      if process.None? || committed || process.value.status.NotRunning? {
        return;
      }
      if !terminationAttempted {
        terminationAttempted := true;
        graceTimer := true;
      }
    }

    method OnExit() returns (signal: Option<Signal>)
      requires !state.Destroyed?
      modifies this
      ensures Turn(View(), signal) == S.Step(old(View()), ProcessExited)
    {
      signal := None;
      if process.Some? {
        Stop();
        signal := Fail();
      }
    }

    method OnTimeout(start: bool) returns (signal: Option<Signal>)
      requires !state.Destroyed?
      modifies this
      ensures Turn(View(), signal) == S.Step(old(View()), if start then StartTimeout else LifetimeTimeout)
    {
      signal := None;
      if start {
        if startTimer {
          startTimer := false;
          assert View() == S.StopStartTimer(old(View()));
          signal := Fail();
        }
      } else if lifetimeTimer {
        lifetimeTimer := false;
        assert View() == S.StopLifetimeTimer(old(View()));
        signal := Fail();
      }
    }

    /** Any event. The client keeps its invariant and only goes on from where it was: what was
        written to a helper stays, verdicts stay, and a committed client stays committed to the
        one attempt, without a soft verdict. */
    method Handle(e: Event) returns (signal: Option<Signal>)
      modifies this
      ensures Turn(View(), signal) == S.Step(old(View()), e)
      ensures S.Inv(old(View())) ==> S.Inv(View()) && P.Continues(old(View()), View())
    {
      ghost var before := View();
      signal := Dispatch(e);
      if S.Inv(before) {
        P.StepKeepsInv(before, e);
        P.StepContinues(before, e);
      }
    }

    method Dispatch(e: Event) returns (signal: Option<Signal>)
      modifies this
      ensures Turn(View(), signal) == S.Step(old(View()), e)
    {
      signal := None;
      if state.Destroyed? {
        return;
      }
      if e.StartCall? || e.CommitCall? || e.CancelCall? || e.Destroy? {
        signal := OnCall(e);
      } else if e.StartTimeout? || e.LifetimeTimeout? || e.GraceTimeout? {
        signal := OnTimer(e);
      } else if e.ReplyLine? || e.OversizedReply? {
        signal := OnOutput(e);
      } else {
        signal := OnProcess(e);
      }
    }

    /** Calls of the dialog, and the destructor. */
    method OnCall(e: Event) returns (signal: Option<Signal>)
      requires !state.Destroyed? && (e.StartCall? || e.CommitCall? || e.CancelCall? || e.Destroy?)
      modifies this
      ensures Turn(View(), signal) == S.Step(old(View()), e)
    {
      match e {
        case StartCall(eligible, usable) => signal := Start(eligible, usable);
        case CommitCall => signal := Commit();
        case CancelCall => signal := Cancel();
        case Destroy => signal := Expire();
      }
    }

    method Expire() returns (signal: Option<Signal>)
      modifies this
      ensures Turn(View(), signal) == S.Expire(old(View()))
    {
      signal := Cancel();
      Discard();
    }

    method Discard()
      modifies this`process, this`released, this`state
      ensures View() == S.Discard(old(View()))
    {
      ReleaseHelper();
      state := State.Destroyed;
    }

    method OnTimer(e: Event) returns (signal: Option<Signal>)
      requires !state.Destroyed? && (e.StartTimeout? || e.LifetimeTimeout? || e.GraceTimeout?)
      modifies this
      ensures Turn(View(), signal) == S.Step(old(View()), e)
    {
      signal := None;
      match e {
        case StartTimeout => signal := OnTimeout(true);
        case LifetimeTimeout => signal := OnTimeout(false);
        case GraceTimeout => OnShutdownGrace();
      }
    }

    /** What arrives on the pipe. */
    method OnOutput(e: Event) returns (signal: Option<Signal>)
      requires !state.Destroyed? && (e.ReplyLine? || e.OversizedReply?)
      modifies this
      ensures Turn(View(), signal) == S.Step(old(View()), e)
    {
      signal := None;
      if e.ReplyLine? {
        signal := ReadReply(e.reply);
      } else if process.Some? {
        signal := Fail();
      }
    }

    method OnProcess(e: Event) returns (signal: Option<Signal>)
      requires !state.Destroyed?
      requires e.ProcessStarted? || e.ProcessStopped? || e.PipeBroken? || e.ProcessExited? || e.ProcessError?
      modifies this
      ensures Turn(View(), signal) == S.Step(old(View()), e)
    {
      signal := None;
      match e {
        case ProcessStarted => signal := OnStarted();
        case ProcessStopped => Stop();
        case PipeBroken => Break();
        case ProcessExited => signal := OnExit();
        case ProcessError => if process.Some? { signal := Fail(); }
      }
    }

    /** The environment ends the process, or breaks its pipe. */
    method Stop()
      modifies this`process
      ensures View() == S.Stopped(old(View()))
    {
      if process.Some? {
        process := Some(process.value.(status := NotRunning));
      }
    }

    method Break()
      modifies this`process
      ensures View() == S.Broken(old(View()))
    {
      if process.Some? {
        process := Some(S.Close(process.value));
      }
    }
  }
}
