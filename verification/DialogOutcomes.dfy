/** What decides how the dialog ends: the password, the phone, the user's own account or the
    user, told from the events. */
module DialogOutcomes {
  import opened Protocol
  import C = ClientSteps
  import Q = ClientProofs
  import K = ClientVerdicts
  import opened DialogSteps
  import E = DialogProofs

  /** The dialog is on the screen and its event loop runs. */
  predicate Running(k: Desk) {
    !k.client.state.Destroyed? && k.dialog.outcome.None?
  }

  // ----- the verdicts that a step brings -----

  predicate Judged(k: Desk, l: Desk) {
    |l.client.verdicts| > |k.client.verdicts|
  }

  predicate JudgedAs(k: Desk, l: Desk, signal: C.Signal) {
    Judged(k, l) && l.client.verdicts[|k.client.verdicts|].signal == signal
  }

  predicate JudgedSoftly(k: Desk, l: Desk) {
    Judged(k, l) && C.Soft(l.client.verdicts[|k.client.verdicts|].signal)
  }

  /** What the user wants in place of the phone, once the event has happened. */
  function Wanted(k: Desk, e: Event): Fallback {
    if Busy(k) && e.ClickAuthenticate? && MayTryPassword(k.dialog) then UsePassword
    else if Busy(k) && e.ClickRunAsMe? && MayRunAsUser(k.dialog) then UseOwnAccount
    else k.dialog.fallback
  }

  predicate MayTryPassword(d: Dialog) {
    !d.authenticating && !d.fatalError && !d.cancelled && !d.phoneCommitted
  }

  predicate MayRunAsUser(d: Dialog) {
    !d.phoneCommitted && !d.cancelled && !d.authenticating
  }

  predicate MayShow(d: Dialog) {
    !d.notificationStarted && !d.notificationFinished && !d.cancelled && !d.fatalError
  }

  /** The user leaves; nothing is carried out any more. */
  predicate Gives(e: Event) {
    e.ClickCancel? || e.Teardown?
  }

  // ----- the endings -----

  predicate TriesPassword(k: Desk, e: Event, l: Desk) {
    MayTryPassword(k.dialog) && ((e.ClickAuthenticate? && !Busy(k)) || (JudgedSoftly(k, l) && Wanted(k, e) == UsePassword && !Gives(e)))
  }

  predicate RunsAsUser(k: Desk, e: Event, l: Desk) {
    MayRunAsUser(k.dialog) && ((e.ClickRunAsMe? && !Busy(k)) || (JudgedSoftly(k, l) && Wanted(k, e) == UseOwnAccount && !Gives(e)))
  }

  predicate ChecksPassword(k: Desk, e: Event) {
    e.PasswordChecked? && k.dialog.authenticating && !k.dialog.cancelled
  }

  /** How the step ends the dialog, if it does. */
  predicate Ends(k: Desk, e: Event, l: Desk) {
    && (l.dialog.outcome == Some(Accepted) <==> ChecksPassword(k, e) && e.result.Correct?)
    && (l.dialog.outcome == Some(AsUser) <==> RunsAsUser(k, e, l))
    && (l.dialog.outcome == Some(Rejected) <==> e.ClickCancel?)
    && (l.dialog.outcome == Some(PhoneExecuted) <==> JudgedAs(k, l, C.LaunchAcknowledged) && !k.dialog.cancelled)
  }

  /** What else it leaves. */
  predicate Leaves(k: Desk, e: Event, l: Desk) {
    && (l.dialog.authenticating <==> (k.dialog.authenticating && !ChecksPassword(k, e)) || TriesPassword(k, e, l))
    && (l.dialog.fatalError <==>
          (k.dialog.fatalError && !(ChecksPassword(k, e) && e.result.Wrong?)) || (ChecksPassword(k, e) && e.result.Fatal?) || JudgedAs(k, l, C.LaunchUncertain))
    && (l.dialog.cancelled <==> k.dialog.cancelled || Gives(e))
    && (l.dialog.fallback == if JudgedSoftly(k, l) && !k.dialog.cancelled && !Gives(e) && !k.dialog.phoneCommitted then NoFallback else Wanted(k, e))
    && (l.dialog.notificationStarted <==> k.dialog.notificationStarted || (e.Show? && MayShow(k.dialog)))
    && (l.dialog.notificationFinished <==>
          k.dialog.notificationFinished || l.dialog.outcome.Some? || e.Teardown? || (ChecksPassword(k, e) && e.result.Fatal?) || JudgedAs(k, l, C.LaunchUncertain))
  }

  // ----- how a signal is delivered -----

  /** What the dialog makes of a signal, once the client has let go of its helper. */
  function Settled(d: Dialog, signal: Option<C.Signal>): Dialog {
    if signal == Some(C.LaunchUncertain) then d.(phoneCommitted := true, fatalError := true, notificationFinished := true)
    else if signal.None? || d.cancelled then d
    else if signal == Some(C.LaunchAcknowledged) then
      if d.phoneCommitted then d.(notificationFinished := true, outcome := Some(PhoneExecuted)) else d
    else if !C.Soft(signal.value) || d.phoneCommitted then d
    else
      d.(fallback := NoFallback,
         authenticating := d.authenticating || (d.fallback == UsePassword && MayTryPassword(d)),
         notificationFinished := d.notificationFinished || (d.fallback == UseOwnAccount && MayRunAsUser(d)),
         outcome := if d.fallback == UseOwnAccount && MayRunAsUser(d) then Some(AsUser) else d.outcome)
  }

  lemma DeliverIs(k: Desk, signal: Option<C.Signal>)
    requires C.LastWord(C.Turn(k.client, signal))
    ensures Deliver(k, signal) == Desk(Settled(k.dialog, signal), k.client)
  {
    if signal.Some? && C.Soft(signal.value) && !k.dialog.cancelled && !k.dialog.phoneCommitted {
      FinishFallbackIs(k, signal);
    }
  }

  lemma FinishFallbackIs(k: Desk, signal: Option<C.Signal>)
    requires !Busy(k) && signal.Some? && C.Soft(signal.value) && !k.dialog.cancelled && !k.dialog.phoneCommitted
    ensures FinishFallback(k) == Desk(Settled(k.dialog, signal), k.client)
  {
    var next := k.(dialog := k.dialog.(fallback := NoFallback));
    assert !Busy(next);
  }

  /** A client's turn without `ready`, delivered to the dialog `d`. */
  lemma TurnSettles(d: Dialog, c: C.Client, turn: C.Turn)
    requires C.LastWord(turn) && K.Announced(c, turn) && d.outcome.None?
    ensures var k, l := Desk(d, c), Desk(Settled(d, turn.signal), turn.client);
            && (JudgedSoftly(k, l) <==> turn.signal.Some? && C.Soft(turn.signal.value))
            && (JudgedAs(k, l, C.LaunchAcknowledged) <==> turn.signal == Some(C.LaunchAcknowledged))
            && (JudgedAs(k, l, C.LaunchUncertain) <==> turn.signal == Some(C.LaunchUncertain))
  {
  }

  predicate Fits(k: Desk, e: Event, l: Desk) {
    Ends(k, e, l) && Leaves(k, e, l)
  }

  lemma PasswordFits(k: Desk, result: PasswordResult)
    requires Inv(k) && Running(k)
    ensures Fits(k, PasswordChecked(result), Step(k, PasswordChecked(result)))
  {
  }

  lemma PostponeIs(k: Desk, fallback: Fallback)
    requires Busy(k) && k.dialog.outcome.None?
    ensures var turn := C.Cancel(k.client);
            Postpone(k, fallback) == Desk(Settled(k.dialog.(fallback := fallback), turn.signal), turn.client)
  {
    DeliverIs(Desk(k.dialog.(fallback := fallback), C.Cancel(k.client).client), C.Cancel(k.client).signal);
  }

  lemma CancelIsSoft(c: C.Client)
    ensures C.Cancel(c).signal.Some? ==> C.Cancel(c).signal == Some(C.RequestCanceled)
  {
  }

  lemma AuthenticateFits(k: Desk)
    requires Inv(k) && Running(k)
    ensures Fits(k, ClickAuthenticate, Step(k, ClickAuthenticate))
  {
    if MayTryPassword(k.dialog) && Busy(k) {
      var turn := C.Cancel(k.client);
      PostponeIs(k, UsePassword);
      CancelIsSoft(k.client);
      K.CancelAnnounces(k.client);
      TurnSettles(k.dialog.(fallback := UsePassword), k.client, turn);
    }
  }

  lemma RunAsMeFits(k: Desk)
    requires Inv(k) && Running(k)
    ensures Fits(k, ClickRunAsMe, Step(k, ClickRunAsMe))
  {
    if MayRunAsUser(k.dialog) && Busy(k) {
      var turn := C.Cancel(k.client);
      PostponeIs(k, UseOwnAccount);
      CancelIsSoft(k.client);
      K.CancelAnnounces(k.client);
      TurnSettles(k.dialog.(fallback := UseOwnAccount), k.client, turn);
    }
  }

  lemma CancelFits(k: Desk)
    requires Inv(k) && Running(k)
    ensures Fits(k, ClickCancel, Step(k, ClickCancel))
  {
    var turn := C.Cancel(k.client);
    DeliverIs(Desk(k.dialog.(cancelled := true), turn.client), turn.signal);
    CancelIsSoft(k.client);
    K.CancelAnnounces(k.client);
    TurnSettles(k.dialog.(cancelled := true), k.client, turn);
  }

  lemma StartIsSoft(c: C.Client, eligible: bool, usable: bool)
    requires C.Inv(c)
    ensures var s := C.Start(c, eligible, usable).signal;
            s.None? || s == Some(C.PhoneUnavailable)
  {
  }

  lemma StartFits(k: Desk, e: Event, d: Dialog, eligible: bool, usable: bool)
    requires Inv(k) && Running(k) && (e.Show? || e.ClickRetry?)
    requires d == k.dialog.(notificationStarted := k.dialog.notificationStarted || e.Show?) && (e.Show? ==> MayShow(k.dialog))
    ensures Fits(k, e, Follow(d, C.Start(k.client, eligible, usable)))
  {
    var turn := C.Start(k.client, eligible, usable);
    StartIsSoft(k.client, eligible, usable);
    K.StartAnnounces(k.client, eligible, usable);
    StartedFits(k, e, d, turn);
  }

  lemma StartedFits(k: Desk, e: Event, d: Dialog, turn: C.Turn)
    requires Running(k) && (e.Show? || e.ClickRetry?) && C.LastWord(turn) && K.Announced(k.client, turn)
    requires turn.signal.None? || turn.signal == Some(C.PhoneUnavailable)
    requires d == k.dialog.(notificationStarted := k.dialog.notificationStarted || e.Show?) && (e.Show? ==> MayShow(k.dialog))
    ensures Fits(k, e, Follow(d, turn))
  {
    DeliverIs(Desk(d, turn.client), turn.signal);
    TurnSettles(d, k.client, turn);
  }

  lemma OpeningFits(k: Desk, e: Event)
    requires Inv(k) && Running(k) && (e.Show? || e.ClickRetry?)
    ensures Fits(k, e, Step(k, e))
  {
    match e {
      case Show(eligible, usable) => if MayShow(k.dialog) { StartFits(k, e, k.dialog.(notificationStarted := true), eligible, usable); }
      case ClickRetry(eligible, usable) => StartFits(k, e, k.dialog, eligible, usable);
    }
  }

  lemma CommitIsUnclear(c: C.Client)
    requires C.Inv(c)
    ensures var s := C.Commit(c).signal;
            s.None? || s == Some(C.LaunchUncertain)
  {
  }

  lemma OnReadyIs(k: Desk)
    requires k.dialog.outcome.None?
    ensures var d := k.dialog;
            var refuses := d.fallback != NoFallback || d.cancelled || d.authenticating;
            var turn := if refuses then C.Cancel(k.client) else C.Commit(k.client);
            OnReady(k) == Desk(Settled(if refuses then d else d.(phoneCommitted := true), turn.signal), turn.client)
  {
    DeliverIs(Desk(k.dialog, C.Cancel(k.client).client), C.Cancel(k.client).signal);
    DeliverIs(Desk(k.dialog.(phoneCommitted := true), C.Commit(k.client).client), C.Commit(k.client).signal);
  }

  lemma ReadyFits(k: Desk, e: Event, c: C.Client)
    requires Running(k) && e.ClientEvent? && c.verdicts == k.client.verdicts && C.Inv(c)
    ensures Fits(k, e, OnReady(Desk(k.dialog, c)))
  {
    OnReadyIs(Desk(k.dialog, c));
    if Refuses(k.dialog) {
      CancelIsSoft(c);
      K.CancelAnnounces(c);
      RefusalFits(k, e, C.Cancel(c));
    } else {
      CommitIsUnclear(c);
      K.CommitAnnounces(c);
      CommitFits(k, e, C.Commit(c));
    }
  }

  lemma RefusalFits(k: Desk, e: Event, turn: C.Turn)
    requires Running(k) && e.ClientEvent? && C.LastWord(turn) && K.Announced(k.client, turn)
    requires turn.signal.None? || turn.signal == Some(C.RequestCanceled)
    ensures Fits(k, e, Desk(Settled(k.dialog, turn.signal), turn.client))
  {
    TurnSettles(k.dialog, k.client, turn);
  }

  lemma CommitFits(k: Desk, e: Event, turn: C.Turn)
    requires Running(k) && e.ClientEvent? && C.LastWord(turn) && K.Announced(k.client, turn)
    requires turn.signal.None? || turn.signal == Some(C.LaunchUncertain)
    ensures Fits(k, e, Desk(Settled(k.dialog.(phoneCommitted := true), turn.signal), turn.client))
  {
    TurnSettles(k.dialog.(phoneCommitted := true), k.client, turn);
  }

  lemma SignalFits(k: Desk, event: C.Event, turn: C.Turn)
    requires Running(k) && C.LastWord(turn) && K.Announced(k.client, turn) && turn.signal != Some(C.ReadyToCommit)
    requires turn.signal == Some(C.LaunchAcknowledged) ==> k.dialog.phoneCommitted
    requires turn.signal.Some? && C.Soft(turn.signal.value) ==> !k.dialog.phoneCommitted
    ensures Fits(k, ClientEvent(event), Deliver(Desk(k.dialog, turn.client), turn.signal))
  {
    DeliverIs(Desk(k.dialog, turn.client), turn.signal);
    TurnSettles(k.dialog, k.client, turn);
  }

  lemma SignalsAreMeant(k: Desk, event: C.Event)
    requires Inv(k) && Running(k) && !Internal(event)
    ensures var s := C.Step(k.client, event).signal;
            && (s == Some(C.LaunchAcknowledged) ==> k.dialog.phoneCommitted)
            && (s.Some? && C.Soft(s.value) ==> !k.dialog.phoneCommitted)
  {
    Q.StepIsMeant(k.client, event);
    K.StepAnnounces(k.client, event);
    K.StepJudges(k.client, event);
  }

  lemma ReadyEventFits(k: Desk, event: C.Event)
    requires Inv(k) && Running(k) && !Internal(event) && C.Step(k.client, event).signal == Some(C.ReadyToCommit)
    ensures Fits(k, ClientEvent(event), OnReady(Desk(k.dialog, C.Step(k.client, event).client)))
  {
    K.StepAnnounces(k.client, event);
    Q.StepKeepsInv(k.client, event);
    ReadyFits(k, ClientEvent(event), C.Step(k.client, event).client);
  }

  lemma ClientEventFits(k: Desk, event: C.Event)
    requires Inv(k) && Running(k)
    ensures Fits(k, ClientEvent(event), Step(k, ClientEvent(event)))
  {
    if !Internal(event) {
      var turn := C.Step(k.client, event);
      if turn.signal == Some(C.ReadyToCommit) {
        ReadyEventFits(k, event);
      } else {
        K.StepAnnounces(k.client, event);
        SignalsAreMeant(k, event);
        SignalFits(k, event, turn);
      }
    }
  }

  lemma TeardownFits(k: Desk)
    requires Inv(k) && Running(k)
    ensures Fits(k, Teardown, Step(k, Teardown))
  {
    var turn := C.Cancel(k.client);
    DeliverIs(Desk(k.dialog.(cancelled := true), turn.client), turn.signal);
    CancelIsSoft(k.client);
    K.CancelAnnounces(k.client);
    K.StepAnnounces(turn.client, C.Destroy);
    K.ExpireIsSoft(turn.client);
  }

  /** One event ends the dialog, starts the password or carries out a fallback exactly as the
      password, the client's verdict and the user's choice say. */
  lemma StepFits(k: Desk, e: Event)
    requires Inv(k) && Running(k)
    ensures Fits(k, e, Step(k, e))
  {
    match e {
      case Show(_, _) => OpeningFits(k, e);
      case ClickRetry(_, _) => OpeningFits(k, e);
      case ClickAuthenticate => AuthenticateFits(k);
      case PasswordChecked(result) => PasswordFits(k, result);
      case ClickRunAsMe => RunAsMeFits(k);
      case ClickCancel => CancelFits(k);
      case ClientEvent(event) => ClientEventFits(k, event);
      case Teardown => TeardownFits(k);
    }
  }

  // ----- what the client is made to do -----

  predicate Refuses(d: Dialog) {
    d.fallback != NoFallback || d.cancelled || d.authenticating
  }

  /** Choosing another way, or leaving, while a phone request is pending. */
  predicate Withdraws(k: Desk, e: Event) {
    || e.ClickCancel? || e.Teardown?
    || (e.ClickAuthenticate? && MayTryPassword(k.dialog))
    || (e.ClickRunAsMe? && MayRunAsUser(k.dialog))
    || (e.ClientEvent? && !Internal(e.event) && K.Readies(k.client, e.event) && Refuses(k.dialog))
  }

  predicate MayStart(d: Dialog, e: Event) {
    if e.Show? then MayShow(d)
    else !d.cancelled && !d.authenticating && !d.fatalError && !d.phoneCommitted && d.fallback.NoFallback?
  }

  lemma ClientAfterClick(k: Desk, e: Event)
    requires Running(k) && Busy(k) && (e.ClickAuthenticate? || e.ClickRunAsMe? || e.ClickCancel?)
    ensures Step(k, e).client == if Withdraws(k, e) then C.Cancel(k.client).client else k.client
  {
    PostponeIs(k, UsePassword);
    PostponeIs(k, UseOwnAccount);
    var turn := C.Cancel(k.client);
    DeliverIs(Desk(k.dialog.(cancelled := true), turn.client), turn.signal);
  }

  lemma ClientAfterReady(k: Desk, event: C.Event)
    requires Inv(k) && Running(k) && !Internal(event) && K.Readies(k.client, event)
    ensures var c := C.Step(k.client, event).client;
            && c.state.Waiting? && c.ready && c.process.Some? && c.requestId == k.client.requestId && !c.committed && C.Inv(c)
            && Step(k, ClientEvent(event)).client == if Refuses(k.dialog) then C.Cancel(c).client else C.Commit(c).client
  {
    K.ReadyIsSignalled(k.client, event);
    K.StepJudges(k.client, event);
    Q.StepKeepsInv(k.client, event);
    OnReadyIs(Desk(k.dialog, C.Step(k.client, event).client));
  }

  /** Whoever chooses another way while the phone is asked calls the phone off first. */
  lemma ChoiceCallsPhoneOff(k: Desk, e: Event)
    requires Inv(k) && Running(k) && Busy(k) && Withdraws(k, e) && !e.Teardown?
    ensures var l := Step(k, e);
            l.client.cancelRequested && l.client.requestId == k.client.requestId && !l.client.committed
  {
    if e.ClientEvent? {
      ClientAfterReady(k, e.event);
      K.CancelGives(C.Step(k.client, e.event).client);
    } else {
      ClientAfterClick(k, e);
      K.CancelGives(k.client);
    }
  }

  /** The phone becomes the owner exactly when its helper says `ready` for the first time and
      nothing else has been chosen. */
  lemma PhoneIsChosenExactly(k: Desk, event: C.Event)
    requires Inv(k) && Running(k) && !Internal(event) && !k.client.committed
    ensures Step(k, ClientEvent(event)).client.committed <==> K.Readies(k.client, event) && !Refuses(k.dialog)
  {
    if K.Readies(k.client, event) {
      ReadyChooses(k, event);
    } else {
      OtherEventsChooseNothing(k, event);
    }
  }

  lemma ReadyChooses(k: Desk, event: C.Event)
    requires Inv(k) && Running(k) && !Internal(event) && !k.client.committed && K.Readies(k.client, event)
    ensures Step(k, ClientEvent(event)).client.committed <==> !Refuses(k.dialog)
  {
    var c := C.Step(k.client, event).client;
    ClientAfterReady(k, event);
    CallsChoose(c);
  }

  lemma CallsChoose(c: C.Client)
    requires C.Inv(c) && c.state.Waiting? && c.ready && c.process.Some? && !c.committed
    ensures C.Commit(c).client.committed && !C.Cancel(c).client.committed
  {
    K.CancelGives(c);
    K.FailGives(C.SendCommit(c));
  }

  lemma OtherEventsChooseNothing(k: Desk, event: C.Event)
    requires Inv(k) && Running(k) && !Internal(event) && !k.client.committed && !K.Readies(k.client, event)
    ensures !Step(k, ClientEvent(event)).client.committed
  {
    var turn := C.Step(k.client, event);
    K.ReadyIsSignalled(k.client, event);
    K.StepJudges(k.client, event);
    DeliverIs(Desk(k.dialog, turn.client), turn.signal);
  }

  /** Showing the dialog and Retry start an attempt exactly when nothing is in the way. */
  lemma AttemptStartsExactly(k: Desk, e: Event)
    requires Inv(k) && Running(k) && (e.Show? || e.ClickRetry?) && K.Startable(k.client)
    ensures Step(k, e).client.state.Starting? <==> MayStart(k.dialog, e) && e.eligible && e.usable
    ensures MayStart(k.dialog, e) && !(e.eligible && e.usable) ==> JudgedAs(k, Step(k, e), C.PhoneUnavailable)
  {
    K.StepJudges(k.client, C.StartCall(e.eligible, e.usable));
    OpeningCalls(k, e);
  }

  lemma OpeningCalls(k: Desk, e: Event)
    requires Inv(k) && Running(k) && (e.Show? || e.ClickRetry?) && !Busy(k)
    ensures Step(k, e).client == if MayStart(k.dialog, e) then C.Start(k.client, e.eligible, e.usable).client else k.client
  {
    var turn := C.Start(k.client, e.eligible, e.usable);
    StartIsSoft(k.client, e.eligible, e.usable);
    DeliverIs(Desk(k.dialog.(notificationStarted := true), turn.client), turn.signal);
    DeliverIs(Desk(k.dialog, turn.client), turn.signal);
  }

  // ----- runs -----

  lemma {:induction false} RunKeepsInv(k: Desk, events: seq<Event>)
    requires Inv(k)
    ensures Inv(Run(k, events))
    decreases |events|
  {
    if events != [] {
      E.StepKeepsInv(k, events[0]);
      RunKeepsInv(Step(k, events[0]), events[1..]);
    }
  }

  /** Over every run: the next event ends the dialog exactly so. */
  lemma EndingIsExplained(events: seq<Event>, e: Event)
    requires Running(Run(INITIAL, events))
    ensures Fits(Run(INITIAL, events), e, Step(Run(INITIAL, events), e))
  {
    RunKeepsInv(INITIAL, events);
    StepFits(Run(INITIAL, events), e);
  }
}
