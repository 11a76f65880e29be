/** A dialog drives its client through an ordinary client run. */
module DialogRuns {
  import opened Protocol
  import C = ClientSteps
  import P = ClientProofs
  import opened DialogSteps

  lemma DeliverKeepsClient(k: Desk, signal: Option<C.Signal>)
    requires C.LastWord(C.Turn(k.client, signal))
    ensures Deliver(k, signal).client == k.client
  {
    if signal.Some? && C.Final(signal.value) {
      var next := k.(dialog := k.dialog.(fallback := NoFallback));
      assert Accept(next).client == next.client && RunAsUser(next).client == next.client;
    }
  }

  lemma OneStep(c: C.Client, a: C.Event)
    ensures C.Run(c, [a]) == C.Step(c, a).client
  {
  }

  lemma TwoSteps(c: C.Client, a: C.Event, b: C.Event)
    ensures C.Run(c, [a, b]) == C.Step(C.Step(c, a).client, b).client
  {
    P.RunAppend(c, [a], [b]);
    assert [a] + [b] == [a, b];
    OneStep(c, a);
    OneStep(C.Step(c, a).client, b);
  }

  /** A client that lives on, and has no new acknowledgement of a launch. */
  predicate Lives(c: C.Client, d: C.Client) {
    && !d.state.Destroyed?
    && forall i :: |c.verdicts| <= i < |d.verdicts| ==> !d.verdicts[i].signal.LaunchAcknowledged?
  }

  lemma ConcludeLives(c: C.Client, d: C.Client, signal: C.Signal)
    requires c.verdicts == d.verdicts && !signal.LaunchAcknowledged?
    ensures Lives(c, C.Conclude(d, signal).client)
  {
    assert C.Conclude(d, signal).client.verdicts == d.verdicts + [C.Verdict(d.requestId, signal)];
    assert C.Conclude(d, signal).client.state == C.Finished;
  }

  lemma WithdrawLives(c: C.Client, d: C.Client)
    requires !d.state.Destroyed? && c.verdicts == d.verdicts
    ensures Lives(c, C.Withdraw(d))
  {
    assert C.Withdraw(d).state == d.state && C.Withdraw(d).verdicts == d.verdicts;
  }

  lemma FailLives(c: C.Client, d: C.Client)
    requires !d.state.Destroyed? && c.verdicts == d.verdicts
    ensures Lives(c, C.Fail(d).client)
  {
    if !d.state.Finished? {
      if !d.committed && C.Alive(d) {
        WithdrawLives(c, d.(failed := true, state := C.Cancelling));
      } else {
        ConcludeLives(c, d, if d.committed then C.LaunchUncertain else if d.cancelRequested then C.RequestCanceled else C.PhoneUnavailable);
      }
    }
  }

  lemma CancelLives(c: C.Client)
    requires !c.state.Destroyed?
    ensures Lives(c, C.Cancel(c).client)
  {
    var d := c.(cancelRequested := true, state := C.Cancelling);
    ConcludeLives(c, d, C.RequestCanceled);
    WithdrawLives(c, d);
  }

  lemma StartLives(c: C.Client, eligible: bool, usable: bool)
    requires !c.state.Destroyed?
    ensures Lives(c, C.Start(c, eligible, usable).client)
  {
    var d := C.Restart(c);
    assert d.verdicts == c.verdicts && !d.state.Destroyed?;
    FailLives(c, d);
    var turn := C.Start(c, eligible, usable);
    assert turn.client == d || turn == C.Fail(d) || (turn.client.verdicts == d.verdicts && turn.client.state == C.Starting);
  }

  lemma SendStartLives(c: C.Client)
    requires c.process.Some?
    ensures Lives(c, C.SendStart(c)) && Lives(c, C.Fail(C.SendStart(c)).client)
  {
    var d := C.SendStart(c);
    assert d.verdicts == c.verdicts && d.state == C.Waiting;
    FailLives(c, d);
  }

  lemma StartedLives(c: C.Client)
    requires !c.state.Destroyed?
    ensures Lives(c, C.Started(c).client)
  {
    if c.process.None? || !c.process.value.status.Launching? {
    } else if c.state.Cancelling? {
      assert C.Started(c).client.verdicts == c.verdicts;
    } else {
      SendStartLives(c);
    }
  }

  lemma CommitLives(c: C.Client)
    requires !c.state.Destroyed?
    ensures Lives(c, C.Commit(c).client)
  {
    if c.process.Some? {
      FailLives(c, C.SendCommit(c));
    }
  }

  lemma CallLives(c: C.Client, e: C.Event)
    requires !c.state.Destroyed? && (e.StartCall? || e.CommitCall? || e.CancelCall? || e.ProcessStarted?)
    ensures Lives(c, C.Step(c, e).client)
  {
    match e {
      case StartCall(eligible, usable) => StartLives(c, eligible, usable);
      case CommitCall => CommitLives(c);
      case CancelCall => CancelLives(c);
      case ProcessStarted => StartedLives(c);
    }
  }

  lemma TimerLives(c: C.Client, e: C.Event)
    requires !c.state.Destroyed?
    requires e.StartTimeout? || e.LifetimeTimeout? || e.GraceTimeout? || e.ProcessError? || e.OversizedReply?
    ensures Lives(c, C.Step(c, e).client)
  {
    match e {
      case StartTimeout => FailLives(c, C.SetTimers(c, false, c.lifetimeTimer, c.graceTimer, c.terminationAttempted));
      case LifetimeTimeout => FailLives(c, C.SetTimers(c, c.startTimer, false, c.graceTimer, c.terminationAttempted));
      case GraceTimeout =>
      case ProcessError => FailLives(c, c);
      case OversizedReply => FailLives(c, c);
    }
  }

  lemma ProcessLives(c: C.Client, e: C.Event)
    requires !c.state.Destroyed? && (e.ProcessStopped? || e.PipeBroken? || e.ProcessExited?)
    ensures Lives(c, C.Step(c, e).client)
  {
    if c.process.Some? {
      FailLives(c, C.WithProcess(c, c.process.value.(status := C.NotRunning)));
    }
  }

  /** A client that stays where it is, or only marks that it may commit. */
  lemma StayLives(c: C.Client)
    requires !c.state.Destroyed?
    ensures Lives(c, c) && Lives(c, c.(ready := true))
  {
  }

  lemma AcknowledgementIsRead(c: C.Client, reply: Reply)
    requires C.ReadReply(c, reply).signal == Some(C.LaunchAcknowledged)
    ensures c.state.Committed? && c.process.Some? && reply.Reply? && reply.event.ExecutedReply?
  {
  }

  lemma AcknowledgingLives(c: C.Client)
    ensures !C.Conclude(c, C.LaunchAcknowledged).client.state.Destroyed?
    ensures C.Conclude(c, C.LaunchAcknowledged).signal == Some(C.LaunchAcknowledged)
  {
    if c.process.Some? {
    }
  }

  lemma ReadReplyLives(c: C.Client, reply: Reply)
    requires !c.state.Destroyed?
    ensures !C.ReadReply(c, reply).client.state.Destroyed?
    ensures Lives(c, C.ReadReply(c, reply).client) || (c.state.Committed? && c.process.Some? && reply.Reply? && reply.event.ExecutedReply?)
  {
    var turn := C.ReadReply(c, reply);
    P.ReadReplyForms(c, reply);
    if turn == C.Fail(c) {
      FailLives(c, c);
    } else if turn == C.Conclude(c, C.LaunchAcknowledged) {
      AcknowledgingLives(c);
      AcknowledgementIsRead(c, reply);
    } else if turn == C.Conclude(c, C.RequestCanceled) {
      ConcludeLives(c, c, C.RequestCanceled);
    } else if turn == C.Conclude(c, C.PhoneUnavailable) {
      ConcludeLives(c, c, C.PhoneUnavailable);
    } else {
      StayLives(c);
    }
  }

  /** Only a helper's `executed` makes a client acknowledge a launch. */
  lemma StepLives(c: C.Client, e: C.Event)
    requires !c.state.Destroyed? && !e.Destroy?
    ensures !C.Step(c, e).client.state.Destroyed?
    ensures Lives(c, C.Step(c, e).client) || (c.state.Committed? && c.process.Some? && e.ReplyLine? && e.reply.Reply? && e.reply.event.ExecutedReply?)
  {
    if e.ReplyLine? {
      ReadReplyLives(c, e.reply);
    } else if e.ProcessStopped? || e.PipeBroken? || e.ProcessExited? {
      ProcessLives(c, e);
    } else if e.StartCall? || e.CommitCall? || e.CancelCall? || e.ProcessStarted? {
      CallLives(c, e);
    } else {
      TimerLives(c, e);
    }
  }

  lemma DestroyIsSilent(c: C.Client)
    ensures forall i :: |c.verdicts| <= i < |C.Step(c, C.Destroy).client.verdicts| ==>
              !C.Step(c, C.Destroy).client.verdicts[i].signal.LaunchAcknowledged?
  {
    if !c.state.Destroyed? {
      CancelLives(c);
      P.DiscardKeepsFields(C.Cancel(c).client);
    }
  }

  /** What the dialog makes its client do next. */
  predicate Drives(k: Desk, e: Event, events: seq<C.Event>) {
    && Step(k, e).client == C.Run(k.client, events)
    && forall i :: 0 <= i < |events| ==> Internal(events[i]) || (i == 0 && e == ClientEvent(events[0]))
  }

  lemma DriveOn(d: Dialog, c: C.Client, b: C.Event)
    requires !c.state.Destroyed?
    requires b == if d.fallback != NoFallback || d.cancelled || d.authenticating then C.CancelCall else C.CommitCall
    ensures OnReady(Desk(d, c)).client == C.Step(c, b).client
  {
    var turn := C.Step(c, b);
    if b.CancelCall? {
      DeliverKeepsClient(Desk(d, turn.client), turn.signal);
    } else {
      DeliverKeepsClient(Desk(d.(phoneCommitted := true), turn.client), turn.signal);
    }
  }

  lemma FollowDrives(d: Dialog, c: C.Client, a: C.Event) returns (events: seq<C.Event>)
    requires !c.state.Destroyed? && !a.Destroy?
    ensures Follow(d, C.Step(c, a)).client == C.Run(c, events)
    ensures events == [a] || events == [a, C.CancelCall] || events == [a, C.CommitCall]
  {
    var turn := C.Step(c, a);
    StepLives(c, a);
    if turn.signal != Some(C.ReadyToCommit) {
      DeliverKeepsClient(Desk(d, turn.client), turn.signal);
      OneStep(c, a);
      events := [a];
    } else {
      var b := if d.fallback != NoFallback || d.cancelled || d.authenticating then C.CancelCall else C.CommitCall;
      TwoSteps(c, a, b);
      DriveOn(d, turn.client, b);
      events := [a, b];
    }
  }

  lemma PostponeDrives(k: Desk, fallback: Fallback)
    requires !k.client.state.Destroyed?
    ensures Postpone(k, fallback).client == C.Run(k.client, [C.CancelCall])
  {
    OneStep(k.client, C.CancelCall);
    var turn := C.Cancel(k.client);
    DeliverKeepsClient(Desk(k.dialog.(fallback := fallback), turn.client), turn.signal);
  }

  lemma RejectDrives(k: Desk)
    requires !k.client.state.Destroyed?
    ensures Reject(k).client == C.Run(k.client, [C.CancelCall])
  {
    OneStep(k.client, C.CancelCall);
    var turn := C.Cancel(k.client);
    DeliverKeepsClient(Desk(k.dialog.(cancelled := true), turn.client), turn.signal);
  }

  lemma LeaveDrives(k: Desk)
    requires !k.client.state.Destroyed?
    ensures Leave(k).client == C.Run(k.client, [C.CancelCall, C.Destroy])
  {
    TwoSteps(k.client, C.CancelCall, C.Destroy);
    var turn := C.Cancel(k.client);
    DeliverKeepsClient(Desk(k.dialog.(cancelled := true), turn.client), turn.signal);
  }

  lemma StepDrives(k: Desk, e: Event) returns (events: seq<C.Event>)
    ensures Drives(k, e, events)
  {
    events := [];
    if k.client.state.Destroyed? {
    } else if e.Teardown? {
      LeaveDrives(k);
      events := [C.CancelCall, C.Destroy];
    } else if k.dialog.outcome.None? {
      match e {
        case Show(eligible, usable) =>
          if Step(k, e) != k { events := FollowDrives(k.dialog.(notificationStarted := true), k.client, C.StartCall(eligible, usable)); }
        case ClickRetry(eligible, usable) =>
          if Step(k, e) != k { events := FollowDrives(k.dialog, k.client, C.StartCall(eligible, usable)); }
        case ClientEvent(event) =>
          if !Internal(event) { events := FollowDrives(k.dialog, k.client, event); }
        case ClickAuthenticate =>
          if Step(k, e).client != k.client { PostponeDrives(k, UsePassword); events := [C.CancelCall]; }
        case ClickRunAsMe =>
          if Step(k, e).client != k.client { PostponeDrives(k, UseOwnAccount); events := [C.CancelCall]; }
        case ClickCancel => RejectDrives(k); events := [C.CancelCall];
        case PasswordChecked(_) =>
      }
    }
  }

  /** An outcome is for good. */
  lemma OutcomeStays(k: Desk, e: Event)
    requires k.dialog.outcome.Some?
    ensures Step(k, e).dialog.outcome == k.dialog.outcome
  {
    if !k.client.state.Destroyed? && e.Teardown? {
      var turn := C.Cancel(k.client);
      assert Deliver(Desk(k.dialog.(cancelled := true), turn.client), turn.signal).dialog.outcome == k.dialog.outcome;
    }
  }
}
