/** `KDEsuDialog` itself, driving the client it was given by `setPhoneAuthentication`. */
module SuDialog {
  import opened Protocol
  import C = ClientSteps
  import opened D = DialogSteps
  import opened PhoneAuth
  import E = DialogProofs
  import X = DialogRuns

  class KDEsuDialog {
    const client: PhoneAuthClient
    var fallback: Fallback
    var authenticating: bool
    var fatalError: bool
    var cancelled: bool
    var phoneCommitted: bool
    var notificationStarted: bool
    var notificationFinished: bool
    var outcome: Option<Outcome>

    ghost function Own(): Dialog
      reads this
    {
      Dialog(fallback, authenticating, fatalError, cancelled, phoneCommitted, notificationStarted, notificationFinished, outcome)
    }

    ghost function View(): Desk
      reads this, client
    {
      Desk(Own(), client.View())
    }

    constructor (client: PhoneAuthClient)
      requires client.View() == C.INITIAL
      ensures View() == D.INITIAL && this.client == client && D.Inv(View())
    {
      this.client := client;
      fallback, outcome := NoFallback, None;
      authenticating, fatalError, cancelled, phoneCommitted := false, false, false, false;
      notificationStarted, notificationFinished := false, false;
    }

    method Done(result: Outcome)
      modifies this
      ensures Own() == D.Done(old(Own()), result)
    {
      notificationFinished := true;
      outcome := Some(result);
    }

    method Accept()
      modifies this, client
      ensures View() == D.Accept(old(View()))
      decreases if client.IsPending() then 4 else 0
    {
      if authenticating || fatalError || cancelled || phoneCommitted {
        return;
      }
      if client.IsPending() {
        fallback := UsePassword;
        var signal := client.Cancel();
        Deliver(signal);
        return;
      }
      authenticating := true;
    }

    method RunAsUser()
      modifies this, client
      ensures View() == D.RunAsUser(old(View()))
      decreases if client.IsPending() then 4 else 0
    {
      if phoneCommitted || cancelled || authenticating {
        return;
      }
      if client.IsPending() {
        fallback := UseOwnAccount;
        var signal := client.Cancel();
        Deliver(signal);
        return;
      }
      Done(AsUser);
    }

    method FinishPhoneFallback()
      requires !client.IsPending()
      modifies this, client
      ensures View() == D.FinishFallback(old(View()))
      decreases 1
    {
      if phoneCommitted || cancelled {
        return;
      }
      var chosen := fallback;
      fallback := NoFallback;
      if chosen.UsePassword? {
        Accept();
      } else if chosen.UseOwnAccount? {
        RunAsUser();
      }
    }

    /** The slots for the client's signals other than `ready`. */
    method Deliver(signal: Option<C.Signal>)
      requires C.LastWord(C.Turn(client.View(), signal))
      modifies this, client
      ensures View() == D.Deliver(old(View()), signal)
      decreases 2
    {
      if signal.None? {
        return;
      }
      match signal.value {
        case LaunchAcknowledged =>
          if !cancelled && phoneCommitted {
            Done(PhoneExecuted);
          }
        case RequestCanceled =>
          if !cancelled {
            FinishPhoneFallback();
          }
        case PhoneUnavailable =>
          if !cancelled {
            FinishPhoneFallback();
          }
        case LaunchUncertain =>
          phoneCommitted := true;
          fatalError := true;
          notificationFinished := true;
        case WaitingForPhone =>
        case ReadyToCommit =>
      }
    }

    method OnReady()
      modifies this, client
      ensures View() == D.OnReady(old(View()))
    {
      var signal;
      if fallback != NoFallback || cancelled || authenticating {
        signal := client.Cancel();
      } else {
        phoneCommitted := true;
        signal := client.Commit();
      }
      Deliver(signal);
    }

    method Follow(signal: Option<C.Signal>)
      requires C.LastWord(C.Turn(client.View(), signal))
      modifies this, client
      ensures View() == D.Follow(old(Own()), C.Turn(old(client.View()), signal))
    {
      if signal == Some(C.ReadyToCommit) {
        OnReady();
      } else {
        Deliver(signal);
      }
    }

    /** The slot of the zero-length timer that `accept` starts. */
    method CheckPassword(result: PasswordResult)
      modifies this
      ensures View() == D.CheckPassword(old(View()), result)
    {
      if !authenticating || cancelled {
        return;
      }
      authenticating := false;
      match result {
        case Correct => Done(Accepted);
        case Wrong => fatalError := false;
        case Fatal =>
          fatalError := true;
          notificationFinished := true;
      }
    }

    method Reject()
      modifies this, client
      ensures View() == D.Reject(old(View()))
    {
      cancelled := true;
      var signal := client.Cancel();
      Deliver(signal);
      Done(Rejected);
    }

    method Retry(eligible: bool, usable: bool)
      modifies this, client
      ensures View() == D.Retry(old(View()), eligible, usable)
    {
      if cancelled || authenticating || fatalError || phoneCommitted || fallback != NoFallback || client.IsPending() {
        return;
      }
      var signal := client.Start(eligible, usable);
      Follow(signal);
    }

    method ShowEvent(eligible: bool, usable: bool)
      modifies this, client
      ensures View() == D.ShowDialog(old(View()), eligible, usable)
    {
      if notificationStarted || notificationFinished || cancelled || fatalError {
        return;
      }
      notificationStarted := true;
      var signal := client.Start(eligible, usable);
      Follow(signal);
    }

    /** The end of `startApp`: this dialog is destroyed, then its client. */
    method Leave()
      modifies this, client
      ensures View() == D.Leave(old(View()))
    {
      cancelled := true;
      var signal := client.Cancel();
      Deliver(signal);
      notificationFinished := true;
      var last := client.Dispatch(C.Destroy);
    }

    /** One turn of the event loop. The dialog and its client keep agreeing on who owns the
        execution, and an outcome is for good. */
    method Handle(e: D.Event)
      modifies this, client
      ensures View() == D.Step(old(View()), e)
      ensures D.Inv(old(View())) ==> D.Inv(View())
      ensures old(outcome).Some? ==> outcome == old(outcome)
    {
      ghost var before := View();
      Dispatch(e);
      if D.Inv(before) {
        E.StepKeepsInv(before, e);
      }
      if before.dialog.outcome.Some? {
        X.OutcomeStays(before, e);
      }
    }

    method Dispatch(e: D.Event)
      modifies this, client
      ensures View() == D.Step(old(View()), e)
    {
      if client.state.Destroyed? {
        return;
      }
      if e.Teardown? {
        Leave();
        return;
      }
      if outcome.Some? {
        return;
      }
      match e {
        case Show(eligible, usable) => ShowEvent(eligible, usable);
        case ClickAuthenticate => Accept();
        case PasswordChecked(result) => CheckPassword(result);
        case ClickRunAsMe => RunAsUser();
        case ClickCancel => Reject();
        case ClickRetry(eligible, usable) => Retry(eligible, usable);
        case ClientEvent(event) =>
          if !D.Internal(event) {
            var signal := client.Dispatch(event);
            Follow(signal);
          }
      }
    }
  }
}
