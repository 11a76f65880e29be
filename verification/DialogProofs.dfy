/** Every run of the dialog keeps one execution owner. */
module DialogProofs {
  import opened Protocol
  import C = ClientSteps
  import P = ClientProofs
  import opened DialogSteps

  /** The dialog's part of `Inv` before the client's signal has been delivered. */
  predicate Agreed(d: Dialog, c: C.Client) {
    && C.Inv(c)
    && (d.phoneCommitted <==> c.committed)
    && (d.phoneCommitted ==> !d.authenticating)
    && d.outcome.None?
  }

  lemma PostponeKeepsInv(k: Desk, fallback: Fallback)
    requires Agreed(k.dialog, k.client) && Busy(k)
    ensures Inv(Postpone(k, fallback))
    decreases 3
  {
    var turn := C.Cancel(k.client);
    P.CancelKeepsInv(k.client);
    P.CancelIsMeant(k.client);
    DeliverKeepsInv(Desk(k.dialog.(fallback := fallback), turn.client), turn.signal);
  }

  lemma AcceptKeepsInv(k: Desk)
    requires Agreed(k.dialog, k.client)
    ensures Inv(Accept(k))
    decreases if Busy(k) then 4 else 0
  {
    if Busy(k) {
      PostponeKeepsInv(k, UsePassword);
    }
  }

  lemma RunAsUserKeepsInv(k: Desk)
    requires Agreed(k.dialog, k.client)
    ensures Inv(RunAsUser(k))
    decreases if Busy(k) then 4 else 0
  {
    if Busy(k) {
      PostponeKeepsInv(k, UseOwnAccount);
    }
  }

  lemma FinishFallbackKeepsInv(k: Desk)
    requires Agreed(k.dialog, k.client) && !Busy(k)
    ensures Inv(FinishFallback(k))
    decreases 1
  {
    var next := k.(dialog := k.dialog.(fallback := NoFallback));
    AcceptKeepsInv(next);
    RunAsUserKeepsInv(next);
  }

  lemma DeliverKeepsInv(k: Desk, signal: Option<C.Signal>)
    requires Agreed(k.dialog, k.client) && C.LastWord(C.Turn(k.client, signal)) && P.Meant(C.Turn(k.client, signal))
    ensures Inv(Deliver(k, signal))
    decreases 2
  {
    if signal.Some? && C.Final(signal.value) {
      assert !C.Soft(signal.value) ==> k.client.committed;
      FinishFallbackKeepsInv(k);
    }
  }

  lemma CallKeepsInv(d: Dialog, turn: C.Turn)
    requires Agreed(d, turn.client) && C.LastWord(turn) && P.Meant(turn) && turn.signal != Some(C.ReadyToCommit)
    ensures Inv(Follow(d, turn))
  {
    DeliverKeepsInv(Desk(d, turn.client), turn.signal);
  }

  lemma OnReadyKeepsInv(k: Desk)
    requires Agreed(k.dialog, k.client) && k.client.state.Waiting? && k.client.ready
    ensures Inv(OnReady(k))
  {
    var d := k.dialog;
    if d.fallback != NoFallback || d.cancelled || d.authenticating {
      P.CancelKeepsInv(k.client);
      P.CancelIsMeant(k.client);
      var turn := C.Cancel(k.client);
      DeliverKeepsInv(Desk(d, turn.client), turn.signal);
    } else {
      P.CommitKeepsInv(k.client);
      P.CommitIsMeant(k.client);
      var turn := C.Commit(k.client);
      DeliverKeepsInv(Desk(d.(phoneCommitted := true), turn.client), turn.signal);
    }
  }

  lemma FollowKeepsInv(d: Dialog, c: C.Client, e: C.Event)
    requires Agreed(d, c) && !e.CommitCall? && !e.Destroy?
    ensures Inv(Follow(d, C.Step(c, e)))
  {
    var turn := C.Step(c, e);
    P.StepKeepsInv(c, e);
    P.StepIsMeant(c, e);
    if turn.signal == Some(C.ReadyToCommit) {
      OnReadyKeepsInv(Desk(d, turn.client));
    } else {
      CallKeepsInv(d, turn);
    }
  }

  /** A cancelled dialog ignores what its client says of the cancellation. */
  lemma CancelQuietly(k: Desk)
    requires Inv(k) && k.dialog.cancelled && !k.client.state.Destroyed?
    ensures var turn := C.Cancel(k.client);
            && Deliver(Desk(k.dialog, turn.client), turn.signal) == Desk(k.dialog, turn.client)
            && C.Inv(turn.client) && turn.client.committed == k.client.committed
            && (k.dialog.outcome == Some(PhoneExecuted) ==> turn.client == k.client)
  {
    P.CancelKeepsInv(k.client);
    P.CancelIsMeant(k.client);
  }

  lemma DestroyKeepsInv(k: Desk)
    requires Inv(k) && !k.client.state.Destroyed? && (k.dialog.outcome == Some(PhoneExecuted) ==> k.client.state.Finished?)
    ensures Inv(Desk(k.dialog.(notificationFinished := true), C.Step(k.client, C.Destroy).client))
  {
    P.StepKeepsInv(k.client, C.Destroy);
    P.ExpireIsMeant(k.client);
  }

  lemma CancelledKeepsInv(k: Desk)
    requires Inv(k) && k.dialog.cancelled && !k.client.state.Destroyed?
    ensures var m := Desk(k.dialog, C.Cancel(k.client).client);
            && Inv(m) && !m.client.state.Destroyed?
            && (m.dialog.outcome == Some(PhoneExecuted) ==> m.client.state.Finished?)
  {
    CancelQuietly(k);
    if k.dialog.outcome == Some(PhoneExecuted) {
      ExecutedIsFinished(k);
    }
    CancelStaysAlive(k.client);
  }

  /** The dialog ends with the phone's execution only when its client has finished. */
  lemma ExecutedIsFinished(k: Desk)
    requires Inv(k) && k.dialog.outcome == Some(PhoneExecuted) && !k.client.state.Destroyed?
    ensures k.client.state.Finished?
  {
  }

  lemma CancelStaysAlive(c: C.Client)
    requires !c.state.Destroyed?
    ensures !C.Cancel(c).client.state.Destroyed?
  {
    if c.process.Some? {
    }
  }

  lemma LeaveKeepsInv(k: Desk)
    requires Inv(k) && !k.client.state.Destroyed?
    ensures Inv(Leave(k))
  {
    var l := k.(dialog := k.dialog.(cancelled := true));
    CancelledKeepsInv(l);
    CancelQuietly(l);
    DestroyKeepsInv(Desk(l.dialog, C.Cancel(k.client).client));
  }

  /** What the user does. */
  lemma ClickKeepsInv(k: Desk, e: Event)
    requires Inv(k) && !k.client.state.Destroyed? && k.dialog.outcome.None?
    requires e.ClickAuthenticate? || e.PasswordChecked? || e.ClickRunAsMe? || e.ClickCancel?
    ensures Inv(Step(k, e))
  {
    match e {
      case ClickAuthenticate => AcceptKeepsInv(k);
      case PasswordChecked(_) =>
      case ClickRunAsMe => RunAsUserKeepsInv(k);
      case ClickCancel => CancelQuietly(k.(dialog := k.dialog.(cancelled := true)));
    }
  }

  /** What drives the client. */
  lemma DriveKeepsInv(k: Desk, e: Event)
    requires Inv(k) && !k.client.state.Destroyed? && k.dialog.outcome.None?
    requires e.Show? || e.ClickRetry? || e.ClientEvent?
    ensures Inv(Step(k, e))
  {
    match e {
      case Show(eligible, usable) =>
        FollowKeepsInv(k.dialog.(notificationStarted := true), k.client, C.StartCall(eligible, usable));
      case ClickRetry(eligible, usable) => FollowKeepsInv(k.dialog, k.client, C.StartCall(eligible, usable));
      case ClientEvent(event) =>
        if !Internal(event) { FollowKeepsInv(k.dialog, k.client, event); }
    }
  }

  lemma StepKeepsInv(k: Desk, e: Event)
    requires Inv(k)
    ensures Inv(Step(k, e))
  {
    if k.client.state.Destroyed? {
    } else if e.Teardown? {
      LeaveKeepsInv(k);
    } else if k.dialog.outcome.None? {
      if e.Show? || e.ClickRetry? || e.ClientEvent? {
        DriveKeepsInv(k, e);
      } else {
        ClickKeepsInv(k, e);
      }
    }
  }
}
