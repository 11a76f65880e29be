/** `KDEsuDialog` together with its client: who may still run the command. */
module DialogSteps {
  import opened Protocol
  import C = ClientSteps

  datatype Fallback = NoFallback | UsePassword | UseOwnAccount

  datatype Outcome = Accepted | Rejected | AsUser | PhoneExecuted

  datatype PasswordResult = Correct | Wrong | Fatal

  datatype Dialog = Dialog(
    fallback: Fallback,
    authenticating: bool,
    fatalError: bool,
    cancelled: bool,
    phoneCommitted: bool,
    notificationStarted: bool,
    notificationFinished: bool,
    outcome: Option<Outcome>)

  datatype Desk = Desk(dialog: Dialog, client: C.Client)

  const INITIAL := Desk(Dialog(NoFallback, false, false, false, false, false, false, None), C.INITIAL)

  /** What can happen to the dialog: its own events, then those of its client. */
  datatype Event =
    | Show(eligible: bool, usable: bool)
    | ClickAuthenticate
    | PasswordChecked(result: PasswordResult)
    | ClickRunAsMe
    | ClickCancel
    | ClickRetry(eligible: bool, usable: bool)
    | ClientEvent(event: C.Event)
    | Teardown

  predicate Busy(k: Desk) {
    C.Pending(k.client)
  }

  function Done(d: Dialog, outcome: Outcome): Dialog {
    d.(notificationFinished := true, outcome := Some(outcome))
  }

  /** Where a pending phone request has to be withdrawn before `fallback` may go on. */
  function Postpone(k: Desk, fallback: Fallback): Desk
    decreases 3
  {
    var turn := C.Cancel(k.client);
    Deliver(Desk(k.dialog.(fallback := fallback), turn.client), turn.signal)
  }

  function Accept(k: Desk): Desk
    decreases if Busy(k) then 4 else 0
  {
    var d := k.dialog;
    if d.authenticating || d.fatalError || d.cancelled || d.phoneCommitted then k
    else if Busy(k) then Postpone(k, UsePassword)
    else k.(dialog := d.(authenticating := true))
  }

  function RunAsUser(k: Desk): Desk
    decreases if Busy(k) then 4 else 0
  {
    var d := k.dialog;
    if d.phoneCommitted || d.cancelled || d.authenticating then k
    else if Busy(k) then Postpone(k, UseOwnAccount)
    else k.(dialog := Done(d, AsUser))
  }

  function FinishFallback(k: Desk): Desk
    requires !Busy(k)
    decreases 1
  {
    var d := k.dialog;
    if d.phoneCommitted || d.cancelled then k
    else
      var next := k.(dialog := d.(fallback := NoFallback));
      match d.fallback
      case NoFallback => next
      case UsePassword => Accept(next)
      case UseOwnAccount => RunAsUser(next)
  }

  /** The dialog's slots for the terminal signals of its client. */
  function Deliver(k: Desk, signal: Option<C.Signal>): Desk
    requires C.LastWord(C.Turn(k.client, signal))
    decreases 2
  {
    var d := k.dialog;
    match signal
    case None => k
    case Some(s) =>
      match s
      case LaunchAcknowledged => if !d.cancelled && d.phoneCommitted then k.(dialog := Done(d, PhoneExecuted)) else k
      case RequestCanceled => if !d.cancelled then FinishFallback(k) else k
      case PhoneUnavailable => if !d.cancelled then FinishFallback(k) else k
      case LaunchUncertain => k.(dialog := d.(phoneCommitted := true, fatalError := true, notificationFinished := true))
      case WaitingForPhone => k
      case ReadyToCommit => k
  }

  /** The slot for `ready`, which picks the execution owner. */
  function OnReady(k: Desk): Desk {
    var d := k.dialog;
    if d.fallback != NoFallback || d.cancelled || d.authenticating then
      var turn := C.Cancel(k.client);
      Deliver(Desk(d, turn.client), turn.signal)
    else
      var turn := C.Commit(k.client);
      Deliver(Desk(d.(phoneCommitted := true), turn.client), turn.signal)
  }

  function Follow(d: Dialog, turn: C.Turn): Desk
    requires C.LastWord(turn)
  {
    var k := Desk(d, turn.client);
    if turn.signal == Some(C.ReadyToCommit) then OnReady(k) else Deliver(k, turn.signal)
  }

  function CheckPassword(k: Desk, result: PasswordResult): Desk {
    var d := k.dialog;
    if !d.authenticating || d.cancelled then k
    else
      var e := d.(authenticating := false);
      match result
      case Correct => k.(dialog := Done(e, Accepted))
      case Wrong => k.(dialog := e.(fatalError := false))
      case Fatal => k.(dialog := e.(fatalError := true, notificationFinished := true))
  }

  function Reject(k: Desk): Desk {
    var turn := C.Cancel(k.client);
    var l := Deliver(Desk(k.dialog.(cancelled := true), turn.client), turn.signal);
    l.(dialog := Done(l.dialog, Rejected))
  }

  function Retry(k: Desk, eligible: bool, usable: bool): Desk {
    var d := k.dialog;
    if d.cancelled || d.authenticating || d.fatalError || d.phoneCommitted || d.fallback != NoFallback || Busy(k) then k
    else Follow(d, C.Start(k.client, eligible, usable))
  }

  function ShowDialog(k: Desk, eligible: bool, usable: bool): Desk {
    var d := k.dialog;
    if d.notificationStarted || d.notificationFinished || d.cancelled || d.fatalError then k
    else Follow(d.(notificationStarted := true), C.Start(k.client, eligible, usable))
  }

  /** Leaving `startApp` destroys the dialog and then the client. */
  function Leave(k: Desk): Desk {
    var turn := C.Cancel(k.client);
    var l := Deliver(Desk(k.dialog.(cancelled := true), turn.client), turn.signal);
    Desk(l.dialog.(notificationFinished := true), C.Step(l.client, C.Destroy).client)
  }

  /** Calls that only the dialog makes, at the places above. */
  predicate Internal(e: C.Event) {
    e.StartCall? || e.CommitCall? || e.CancelCall? || e.Destroy?
  }

  /** Once `exec` has an outcome the event loop is over and only the teardown is left. */
  function Step(k: Desk, e: Event): Desk {
    if k.client.state.Destroyed? then k
    else if e.Teardown? then Leave(k)
    else if k.dialog.outcome.Some? then k
    else
      match e
      case Show(eligible, usable) => ShowDialog(k, eligible, usable)
      case ClickAuthenticate => Accept(k)
      case PasswordChecked(result) => CheckPassword(k, result)
      case ClickRunAsMe => RunAsUser(k)
      case ClickCancel => Reject(k)
      case ClickRetry(eligible, usable) => Retry(k, eligible, usable)
      case ClientEvent(event) => if Internal(event) then k else Follow(k.dialog, C.Step(k.client, event))
      case Teardown => k
  }

  function Run(k: Desk, events: seq<Event>): Desk
    decreases |events|
  {
    if events == [] then k else Run(Step(k, events[0]), events[1..])
  }

  // ----- the invariant -----

  /** The phone owns the execution exactly when the client has committed; the two other
      owners are chosen only without it, for good. */
  predicate Owned(k: Desk) {
    && (k.dialog.phoneCommitted <==> k.client.committed)
    && (k.dialog.phoneCommitted ==> !k.dialog.authenticating)
    && (k.dialog.outcome == Some(Accepted) || k.dialog.outcome == Some(AsUser) ==> !k.client.committed)
    && (k.dialog.outcome == Some(PhoneExecuted) ==>
          && |k.client.verdicts| > 0
          && k.client.verdicts[|k.client.verdicts| - 1] == C.Verdict(k.client.requestId, C.LaunchAcknowledged))
  }

  predicate Inv(k: Desk) {
    Owned(k) && C.Inv(k.client)
  }
}
