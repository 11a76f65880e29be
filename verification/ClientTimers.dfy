/** No attempt waits for ever: whatever it waits for, a timer is running that ends the wait. */
module ClientTimers {
  import opened Protocol
  import opened ClientSteps
  import P = ClientProofs

  /** The helper has been asked to leave, or forced to. */
  predicate LeavesSoon(c: Client) {
    c.graceTimer || c.terminationAttempted || c.process.None? || c.process.value.status.NotRunning?
  }

  predicate Ticking(c: Client) {
    match c.state
    case Starting => c.startTimer && c.lifetimeTimer
    case Waiting => c.lifetimeTimer
    case Committed => c.lifetimeTimer && !c.withdrawing
    case Cancelling => LeavesSoon(c)
    case Destroyed => true
    case _ => !c.startTimer && !c.lifetimeTimer && !c.graceTimer
  }

  lemma FinishTicks(c: Client)
    ensures Ticking(Finish(c))
  {
    if c.process.Some? {
    }
  }

  lemma WithdrawTicks(c: Client)
    requires c.state.Cancelling? && (c.withdrawing ==> LeavesSoon(c))
    ensures Ticking(Withdraw(c))
  {
    if c.startSent {
    }
  }

  lemma FailTicks(c: Client)
    requires c.state.Finished? ==> Ticking(c)
    requires c.withdrawing ==> LeavesSoon(c)
    ensures Ticking(Fail(c).client)
  {
    if c.state.Finished? {
    } else if !c.committed && Alive(c) {
      WithdrawTicks(c.(failed := true, state := Cancelling));
    } else {
      FinishTicks(Judge(c, if c.committed then LaunchUncertain else if c.cancelRequested then RequestCanceled else PhoneUnavailable));
    }
  }

  lemma CancelTicks(c: Client)
    requires Ticking(c) && (c.withdrawing ==> LeavesSoon(c))
    ensures Ticking(Cancel(c).client)
  {
    if !(c.state.Finished? || c.committed || c.cancelRequested) {
      var d := c.(cancelRequested := true, state := Cancelling);
      if Alive(d) {
        WithdrawTicks(d);
      } else {
        FinishTicks(Judge(d, RequestCanceled));
      }
    }
  }

  predicate Waits(c: Client) {
    Shape(c) && Ticking(c)
  }

  lemma FinalLineTicks(c: Client)
    ensures forall signal :: Ticking(Conclude(c, signal).client)
  {
    forall signal
      ensures Ticking(Conclude(c, signal).client)
    {
      FinishTicks(Judge(c, signal));
    }
  }

  lemma CommitTicks(c: Client)
    requires Waits(c) && !c.state.Destroyed?
    ensures Ticking(Step(c, CommitCall).client)
  {
    if c.process.Some? && !c.process.value.writable {
      FailTicks(SendCommit(c));
    }
  }

  lemma CancelCallTicks(c: Client)
    requires Waits(c) && !c.state.Destroyed?
    ensures Ticking(Step(c, CancelCall).client)
  {
    CancelTicks(c);
  }

  lemma StartedTicks(c: Client)
    requires Waits(c) && !c.state.Destroyed?
    ensures Ticking(Step(c, ProcessStarted).client)
  {
    if c.process.Some? && c.state.Starting? {
      FailTicks(SendStart(c));
    }
  }

  lemma StoppedTicks(c: Client)
    requires Waits(c) && !c.state.Destroyed?
    ensures Ticking(Step(c, ProcessStopped).client)
  {
  }

  lemma BrokenTicks(c: Client)
    requires Waits(c) && !c.state.Destroyed?
    ensures Ticking(Step(c, PipeBroken).client)
  {
  }

  lemma ExitedTicks(c: Client)
    requires Waits(c) && !c.state.Destroyed?
    ensures Ticking(Step(c, ProcessExited).client)
  {
    FailTicks(Stopped(c));
  }

  lemma ErrorTicks(c: Client)
    requires Waits(c) && !c.state.Destroyed?
    ensures Ticking(Step(c, ProcessError).client)
  {
    FailTicks(c);
  }

  lemma StartTimeoutTicks(c: Client)
    requires Waits(c) && !c.state.Destroyed?
    ensures Ticking(Step(c, StartTimeout).client)
  {
    FailTicks(StopStartTimer(c));
  }

  lemma LifetimeTimeoutTicks(c: Client)
    requires Waits(c) && !c.state.Destroyed?
    ensures Ticking(Step(c, LifetimeTimeout).client)
  {
    FailTicks(StopLifetimeTimer(c));
  }

  lemma GraceTimeoutTicks(c: Client)
    requires Waits(c) && !c.state.Destroyed?
    ensures Ticking(Step(c, GraceTimeout).client)
  {
  }

  lemma ReplyTicks(c: Client, reply: Reply)
    requires Waits(c) && !c.state.Destroyed?
    ensures Ticking(Step(c, ReplyLine(reply)).client)
  {
    FailTicks(c);
    FinalLineTicks(c);
  }

  lemma OversizedTicks(c: Client)
    requires Waits(c) && !c.state.Destroyed?
    ensures Ticking(Step(c, OversizedReply).client)
  {
    FailTicks(c);
  }

  lemma StartTicks(c: Client, eligible: bool, usable: bool)
    requires Waits(c) && !c.state.Destroyed?
    ensures Ticking(Step(c, StartCall(eligible, usable)).client)
  {
    FailTicks(Restart(c));
  }

  lemma StepTicks(c: Client, e: Event)
    requires Waits(c)
    ensures Ticking(Step(c, e).client)
  {
    if !c.state.Destroyed? {
      match e {
        case CommitCall => CommitTicks(c);
        case CancelCall => CancelCallTicks(c);
        case ProcessStarted => StartedTicks(c);
        case ProcessStopped => StoppedTicks(c);
        case PipeBroken => BrokenTicks(c);
        case ProcessExited => ExitedTicks(c);
        case ProcessError => ErrorTicks(c);
        case StartTimeout => StartTimeoutTicks(c);
        case LifetimeTimeout => LifetimeTimeoutTicks(c);
        case GraceTimeout => GraceTimeoutTicks(c);
        case ReplyLine(reply) => ReplyTicks(c, reply);
        case OversizedReply => OversizedTicks(c);
        case StartCall(eligible, usable) => StartTicks(c, eligible, usable);
        case Destroy =>
      }
    }
  }

  /** Over every run: while a helper is being started, asked, waited for after the commit or
      waited out, a timer runs that ends the wait, or it has already been made to leave; and
      none runs when nothing is under way. */
  lemma {:induction false} RunTicks(c: Client, events: seq<Event>)
    requires Inv(c) && Ticking(c)
    ensures Ticking(Run(c, events))
    decreases |events|
  {
    if events != [] {
      StepTicks(c, events[0]);
      P.StepKeepsInv(c, events[0]);
      RunTicks(Step(c, events[0]).client, events[1..]);
    }
  }
}
