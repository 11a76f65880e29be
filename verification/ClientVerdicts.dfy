/** Which verdict an attempt gets, told from what happened to it: the calls, the helper's
    lines and the troubles of its process, and not from the client's own flags. */
module ClientVerdicts {
  import opened Protocol
  import opened ClientSteps
  import P = ClientProofs

  // ----- what can happen to an attempt -----

  predicate Over(c: Client) {
    c.state.Finished? || c.state.Destroyed?
  }

  predicate Attended(c: Client) {
    c.process.Some? && !Over(c)
  }

  predicate Live(c: Client) {
    c.process.Some? && !c.process.value.status.NotRunning?
  }

  /** A line of the current helper with the attempt's own UUID. */
  predicate Hears(c: Client, e: Event) {
    Attended(c) && e.ReplyLine? && e.reply.Reply? && e.reply.id == c.requestId
  }

  /** JSON numbers from 1 to 2147483647 without a fraction. */
  predicate ProcessNumber(pid: real) {
    1 <= pid.Floor <= 2147483647 && pid == pid.Floor as real
  }

  /** The user, or the dialog on its way out, calls the attempt off. */
  predicate CallsOff(c: Client, e: Event) {
    (e.CancelCall? || e.Destroy?) && !Over(c) && !c.committed
  }

  predicate Acknowledges(c: Client, e: Event) {
    Hears(c, e) && e.reply.event.ExecutedReply? && c.state.Committed? && e.reply.event.pid.Some? && ProcessNumber(e.reply.event.pid.value)
  }

  predicate HelperCancels(c: Client, e: Event) {
    Hears(c, e) && e.reply.event.CanceledReply? && !c.committed
  }

  predicate HelperRejects(c: Client, e: Event) {
    Hears(c, e) && e.reply.event.ErrorReply? && e.reply.event.hasMessage && !c.committed
  }

  predicate Readies(c: Client, e: Event) {
    Hears(c, e) && e.reply.event.ReadyReply? && c.state.Waiting? && !c.ready
  }

  /** A `ready` that crossed the withdrawal. */
  predicate ReadiesLate(c: Client, e: Event) {
    Hears(c, e) && e.reply.event.ReadyReply? && c.state.Cancelling?
  }

  predicate Startable(c: Client) {
    c.state.Idle? || (c.state.Finished? && !c.committed)
  }

  /** The write of `commit`. */
  predicate Commits(c: Client, e: Event) {
    e.CommitCall? && c.state.Waiting? && c.ready && c.process.Some?
  }

  predicate Introduces(c: Client, e: Event) {
    e.ProcessStarted? && Attended(c) && c.process.value.status.Launching? && !c.state.Cancelling?
  }

  /** Everything that makes the client give up by itself. */
  predicate Trouble(c: Client, e: Event) {
    match e
    case StartCall(eligible, usable) => Startable(c) && !(eligible && usable)
    case ProcessStarted => Introduces(c, e) && !c.process.value.writable
    case CommitCall => Commits(c, e) && !c.process.value.writable
    case ProcessExited => Attended(c)
    case ProcessError => Attended(c)
    case OversizedReply => Attended(c)
    case StartTimeout => c.startTimer && !Over(c)
    case LifetimeTimeout => c.lifetimeTimer && !Over(c)
    case ReplyLine(_) =>
      Attended(c) && !Acknowledges(c, e) && !HelperCancels(c, e) && !HelperRejects(c, e) && !Readies(c, e) && !ReadiesLate(c, e)
    case _ => false
  }

  /** The helper is still there after the event, to be asked to withdraw. */
  predicate StaysLive(c: Client, e: Event) {
    Live(c) && !e.ProcessExited?
  }

  predicate Committed(c: Client, e: Event) {
    c.committed || Commits(c, e)
  }

  /** The client gives the attempt up while its helper is still there. */
  predicate GivesUp(c: Client, e: Event) {
    Attended(c) && Trouble(c, e) && !Committed(c, e) && StaysLive(c, e)
  }

  /** Either way the helper is asked to withdraw. */
  predicate AsksBack(c: Client, e: Event) {
    GivesUp(c, e) || (CallsOff(c, e) && !c.cancelRequested && Live(c))
  }

  // ----- the verdict -----

  predicate Succeeds(c: Client, e: Event) {
    Acknowledges(c, e)
  }

  predicate LeavesUnclear(c: Client, e: Event) {
    Trouble(c, e) && Committed(c, e)
  }

  predicate EndsSoftly(c: Client, e: Event) {
    || HelperCancels(c, e) || HelperRejects(c, e)
    || (CallsOff(c, e) && !c.cancelRequested && !Live(c))
    || (Trouble(c, e) && !Committed(c, e) && !StaysLive(c, e))
  }

  /** The attempt was called off, now or before, or its helper gave it up for no reason of
      the client's. */
  predicate IsCancellation(c: Client, e: Event) {
    (c.cancelRequested && !e.StartCall?) || CallsOff(c, e) || (HelperCancels(c, e) && !c.failed)
  }

  function Attempt(c: Client, e: Event): nat {
    if e.StartCall? && c.state.Finished? && !c.committed then c.requestId + 1 else c.requestId
  }

  function Due(c: Client, e: Event): seq<Verdict> {
    if Succeeds(c, e) then [Verdict(c.requestId, LaunchAcknowledged)]
    else if LeavesUnclear(c, e) then [Verdict(c.requestId, LaunchUncertain)]
    else if EndsSoftly(c, e) then [Verdict(Attempt(c, e), if IsCancellation(c, e) then RequestCanceled else PhoneUnavailable)]
    else []
  }

  function Next(c: Client, e: Event): State {
    if e.Destroy? then Destroyed
    else if Due(c, e) != [] then Finished
    else if AsksBack(c, e) then Cancelling
    else if e.StartCall? && Startable(c) then Starting
    else if Introduces(c, e) then Waiting
    else if Commits(c, e) then ClientSteps.Committed
    else c.state
  }

  /** One step adds exactly the verdict that is due, and moves on exactly so. */
  predicate Judges(c: Client, e: Event, d: Client) {
    && d.verdicts == c.verdicts + Due(c, e)
    && d.requestId == Attempt(c, e)
    && (d.cancelRequested <==> (c.cancelRequested && d.requestId == c.requestId) || CallsOff(c, e))
    && (d.failed <==> (c.failed && d.requestId == c.requestId) || GivesUp(c, e))
    && d.state == Next(c, e)
    && (d.startSent <==> (c.startSent && d.requestId == c.requestId) || Introduces(c, e))
    && (d.ready <==> (c.ready && d.requestId == c.requestId) || Readies(c, e))
    && (d.committed <==> Committed(c, e))
  }

  /** The record that the verdicts are told from. */
  predicate SameRecord(c: Client, d: Client) {
    && d.requestId == c.requestId && d.cancelRequested == c.cancelRequested && d.failed == c.failed && d.verdicts == c.verdicts
    && d.state == c.state && d.startSent == c.startSent && d.ready == c.ready && d.committed == c.committed
  }

  lemma FinishGives(c: Client)
    ensures SameRecord(c.(state := Finished), Finish(c))
  {
    if c.process.Some? {
    }
  }

  lemma ConcludeGives(c: Client, signal: Signal)
    ensures SameRecord(c.(state := Finished, verdicts := c.verdicts + [Verdict(c.requestId, signal)]), Conclude(c, signal).client)
  {
    FinishGives(Judge(c, signal));
  }

  lemma WithdrawGives(c: Client)
    ensures SameRecord(c, Withdraw(c))
  {
    if c.withdrawing || c.process.None? {
    } else if c.startSent {
    }
  }

  function Surrender(c: Client): Signal {
    if c.committed then LaunchUncertain else if c.cancelRequested then RequestCanceled else PhoneUnavailable
  }

  /** What giving up comes to. */
  lemma FailGives(c: Client)
    ensures c.state.Finished? ==> SameRecord(c, Fail(c).client)
    ensures !c.state.Finished? && !c.committed && Live(c) ==> SameRecord(c.(failed := true, state := Cancelling), Fail(c).client)
    ensures !c.state.Finished? && (c.committed || !Live(c)) ==>
              SameRecord(c.(state := Finished, verdicts := c.verdicts + [Verdict(c.requestId, Surrender(c))]), Fail(c).client)
  {
    if !c.state.Finished? {
      if !c.committed && Live(c) {
        WithdrawGives(c.(failed := true, state := Cancelling));
      } else {
        ConcludeGives(c, Surrender(c));
      }
    }
  }

  /** The same with other timers, or once the process has stopped. */
  lemma FailAfter(c: Client, f: Client)
    requires SameRecord(c, f)
    ensures c.state.Finished? ==> SameRecord(c, Fail(f).client)
    ensures !c.state.Finished? && !c.committed && Live(f) ==> SameRecord(c.(failed := true, state := Cancelling), Fail(f).client)
    ensures !c.state.Finished? && (c.committed || !Live(f)) ==>
              SameRecord(c.(state := Finished, verdicts := c.verdicts + [Verdict(c.requestId, Surrender(c))]), Fail(f).client)
  {
    FailGives(f);
  }

  lemma StartTimerIsNoRecord(c: Client)
    ensures SameRecord(c, StopStartTimer(c)) && StopStartTimer(c).process == c.process
  {
  }

  lemma LifetimeTimerIsNoRecord(c: Client)
    ensures SameRecord(c, StopLifetimeTimer(c)) && StopLifetimeTimer(c).process == c.process
  {
  }

  lemma StopIsNoRecord(c: Client)
    ensures SameRecord(c, Stopped(c)) && !Live(Stopped(c))
  {
    if c.process.Some? {
    }
  }

  lemma BreakIsNoRecord(c: Client)
    ensures SameRecord(c, Broken(c))
  {
    if c.process.Some? {
    }
  }

  lemma CancelGives(c: Client)
    ensures c.state.Finished? || c.committed || c.cancelRequested ==> Cancel(c).client == c
    ensures !c.state.Finished? && !c.committed && !c.cancelRequested ==>
              SameRecord(c.(cancelRequested := true, state := if Live(c) then Cancelling else Finished,
                            verdicts := c.verdicts + if Live(c) then [] else [Verdict(c.requestId, RequestCanceled)]), Cancel(c).client)
  {
    if !c.state.Finished? && !c.committed && !c.cancelRequested {
      var d := c.(cancelRequested := true, state := Cancelling);
      if Live(c) {
        WithdrawGives(d);
        assert Cancel(c).client == Withdraw(d);
      } else {
        ConcludeGives(d, RequestCanceled);
        assert Cancel(c).client == Conclude(d, RequestCanceled).client;
      }
    }
  }

  lemma TroubleJudges(c: Client, e: Event, d: Client)
    requires Shape(c) && Trouble(c, e)
    requires e.ProcessExited? || e.ProcessError? || e.OversizedReply? || e.StartTimeout? || e.LifetimeTimeout? || e.ReplyLine?
    requires GivesUp(c, e) ==> SameRecord(c.(failed := true, state := Cancelling), d)
    requires !GivesUp(c, e) ==> SameRecord(c.(state := Finished, verdicts := c.verdicts + [Verdict(c.requestId, Surrender(c))]), d)
    ensures Judges(c, e, d)
  {
    assert !Succeeds(c, e) && !CallsOff(c, e) && !HelperCancels(c, e) && !HelperRejects(c, e);
    if GivesUp(c, e) {
      assert Due(c, e) == [];
    }
  }

  lemma NothingJudges(c: Client, e: Event, d: Client)
    requires Shape(c) && SameRecord(c, d) && !Trouble(c, e)
    requires e.ProcessStopped? || e.PipeBroken? || e.GraceTimeout? || e.StartTimeout? || e.LifetimeTimeout? || (e.ReplyLine? && !Attended(c)) || (e.ProcessStarted? && !Introduces(c, e))
    ensures Judges(c, e, d)
  {
    assert Due(c, e) == [] && !AsksBack(c, e);
  }

  lemma StartGives(c: Client, eligible: bool, usable: bool)
    requires Shape(c) && !c.state.Destroyed?
    ensures var d, r := Step(c, StartCall(eligible, usable)).client, Restart(c);
            && (!Startable(c) ==> SameRecord(c, d))
            && (Startable(c) && eligible && usable ==> SameRecord(r.(state := Starting), d))
            && (Startable(c) && !(eligible && usable) ==> SameRecord(r.(state := Finished, verdicts := r.verdicts + [Verdict(r.requestId, PhoneUnavailable)]), d))
  {
    FailGives(Restart(c));
  }

  lemma RestartGives(c: Client)
    requires c.state.Finished? && !c.committed
    ensures SameRecord(c.(state := Idle, requestId := c.requestId + 1, cancelRequested := false, failed := false, startSent := false, ready := false), Restart(c))
  {
  }

  lemma StartCallJudges(c: Client, eligible: bool, usable: bool)
    requires Shape(c) && !c.state.Destroyed?
    ensures Judges(c, StartCall(eligible, usable), Step(c, StartCall(eligible, usable)).client)
  {
    StartGives(c, eligible, usable);
    if c.state.Finished? && !c.committed {
      RestartGives(c);
    }
    StartingJudges(c, eligible, usable, Restart(c), Step(c, StartCall(eligible, usable)).client);
  }

  lemma StartingJudges(c: Client, eligible: bool, usable: bool, r: Client, d: Client)
    requires Shape(c) && !c.state.Destroyed?
    requires if c.state.Finished? && !c.committed
             then SameRecord(c.(state := Idle, requestId := c.requestId + 1, cancelRequested := false, failed := false, startSent := false, ready := false), r)
             else r == c
    requires !Startable(c) ==> SameRecord(c, d)
    requires Startable(c) && eligible && usable ==> SameRecord(r.(state := Starting), d)
    requires Startable(c) && !(eligible && usable) ==> SameRecord(r.(state := Finished, verdicts := r.verdicts + [Verdict(r.requestId, PhoneUnavailable)]), d)
    ensures Judges(c, StartCall(eligible, usable), d)
  {
  }

  lemma CommitCallJudges(c: Client)
    requires Shape(c) && !c.state.Destroyed?
    ensures Judges(c, CommitCall, Step(c, CommitCall).client)
  {
  }

  lemma CancelCallJudges(c: Client)
    requires Shape(c) && !c.state.Destroyed?
    ensures Judges(c, CancelCall, Step(c, CancelCall).client)
  {
    CancelGives(c);
  }

  lemma IntroductionJudges(c: Client, d: Client)
    requires Shape(c) && Introduces(c, ProcessStarted)
    requires c.process.value.writable ==> SameRecord(c.(state := Waiting, startSent := true), d)
    requires !c.process.value.writable ==> SameRecord(c.(state := Cancelling, startSent := true, failed := true), d)
    ensures Judges(c, ProcessStarted, d)
  {
    assert StaysLive(c, ProcessStarted);
  }

  lemma ProcessStartedJudges(c: Client)
    requires Shape(c) && !c.state.Destroyed?
    ensures Judges(c, ProcessStarted, Step(c, ProcessStarted).client)
  {
    if !Introduces(c, ProcessStarted) {
      IdleStart(c);
      NothingJudges(c, ProcessStarted, Step(c, ProcessStarted).client);
    } else {
      FailGives(SendStart(c));
      IntroductionJudges(c, Step(c, ProcessStarted).client);
    }
  }

  lemma IdleStart(c: Client)
    requires Shape(c) && !c.state.Destroyed? && !Introduces(c, ProcessStarted)
    ensures SameRecord(c, Step(c, ProcessStarted).client)
  {
  }

  lemma ProcessStoppedJudges(c: Client)
    requires Shape(c) && !c.state.Destroyed?
    ensures Judges(c, ProcessStopped, Step(c, ProcessStopped).client)
  {
    StopIsNoRecord(c);
    NothingJudges(c, ProcessStopped, Stopped(c));
  }

  lemma PipeBrokenJudges(c: Client)
    requires Shape(c) && !c.state.Destroyed?
    ensures Judges(c, PipeBroken, Step(c, PipeBroken).client)
  {
    BreakIsNoRecord(c);
    NothingJudges(c, PipeBroken, Broken(c));
  }

  lemma ProcessExitedJudges(c: Client)
    requires Shape(c) && !c.state.Destroyed?
    ensures Judges(c, ProcessExited, Step(c, ProcessExited).client)
  {
    ExitIs(c);
    ExitJudges(c, Step(c, ProcessExited).client);
  }

  lemma ExitIs(c: Client)
    requires !c.state.Destroyed?
    ensures Step(c, ProcessExited).client == if c.process.None? then c else Fail(Stopped(c)).client
  {
  }

  lemma ExitJudges(c: Client, d: Client)
    requires Shape(c) && !c.state.Destroyed? && d == if c.process.None? then c else Fail(Stopped(c)).client
    ensures Judges(c, ProcessExited, d)
  {
    if c.process.Some? {
      StopIsNoRecord(c);
      FailAfter(c, Stopped(c));
      TroubleJudges(c, ProcessExited, d);
    } else {
      NothingHappens(c, d);
    }
  }

  lemma NothingHappens(c: Client, d: Client)
    requires Shape(c) && !c.state.Destroyed? && c.process.None? && d == c
    ensures Judges(c, ProcessExited, d)
  {
  }

  lemma ProcessErrorJudges(c: Client)
    requires Shape(c) && !c.state.Destroyed?
    ensures Judges(c, ProcessError, Step(c, ProcessError).client)
  {
    FailGives(c);
  }

  lemma TimeoutJudgesFrom(c: Client, e: Event, d: Client)
    requires Shape(c) && !c.state.Destroyed? && ((e.StartTimeout? && c.startTimer) || (e.LifetimeTimeout? && c.lifetimeTimer))
    requires c.state.Finished? ==> SameRecord(c, d)
    requires !c.state.Finished? && !c.committed && Live(c) ==> SameRecord(c.(failed := true, state := Cancelling), d)
    requires !c.state.Finished? && (c.committed || !Live(c)) ==>
               SameRecord(c.(state := Finished, verdicts := c.verdicts + [Verdict(c.requestId, Surrender(c))]), d)
    ensures Judges(c, e, d)
  {
    if c.state.Finished? {
      NothingJudges(c, e, d);
    } else {
      TroubleJudges(c, e, d);
    }
  }

  lemma StartTimeoutIs(c: Client)
    requires !c.state.Destroyed?
    ensures Step(c, StartTimeout).client == if c.startTimer then Fail(StopStartTimer(c)).client else c
  {
  }

  lemma StartTimeoutJudges(c: Client)
    requires Shape(c) && !c.state.Destroyed?
    ensures Judges(c, StartTimeout, Step(c, StartTimeout).client)
  {
    var d := StartTimeoutGives(c);
    if c.startTimer {
      TimeoutJudgesFrom(c, StartTimeout, d);
    } else {
      NothingJudges(c, StartTimeout, d);
    }
  }

  lemma StartTimeoutGives(c: Client) returns (d: Client)
    requires !c.state.Destroyed?
    ensures d == Step(c, StartTimeout).client
    ensures !c.startTimer || c.state.Finished? ==> SameRecord(c, d)
    ensures c.startTimer && !c.state.Finished? && !c.committed && Live(c) ==> SameRecord(c.(failed := true, state := Cancelling), d)
    ensures c.startTimer && !c.state.Finished? && (c.committed || !Live(c)) ==>
              SameRecord(c.(state := Finished, verdicts := c.verdicts + [Verdict(c.requestId, Surrender(c))]), d)
  {
    StartTimeoutIs(c);
    StartTimerIsNoRecord(c);
    FailAfter(c, StopStartTimer(c));
    d := Step(c, StartTimeout).client;
  }

  lemma LifetimeTimeoutIs(c: Client)
    requires !c.state.Destroyed?
    ensures Step(c, LifetimeTimeout).client == if c.lifetimeTimer then Fail(StopLifetimeTimer(c)).client else c
  {
  }

  lemma LifetimeTimeoutJudges(c: Client)
    requires Shape(c) && !c.state.Destroyed?
    ensures Judges(c, LifetimeTimeout, Step(c, LifetimeTimeout).client)
  {
    var d := LifetimeTimeoutGives(c);
    if c.lifetimeTimer {
      TimeoutJudgesFrom(c, LifetimeTimeout, d);
    } else {
      NothingJudges(c, LifetimeTimeout, d);
    }
  }

  lemma LifetimeTimeoutGives(c: Client) returns (d: Client)
    requires !c.state.Destroyed?
    ensures d == Step(c, LifetimeTimeout).client
    ensures !c.lifetimeTimer || c.state.Finished? ==> SameRecord(c, d)
    ensures c.lifetimeTimer && !c.state.Finished? && !c.committed && Live(c) ==> SameRecord(c.(failed := true, state := Cancelling), d)
    ensures c.lifetimeTimer && !c.state.Finished? && (c.committed || !Live(c)) ==>
              SameRecord(c.(state := Finished, verdicts := c.verdicts + [Verdict(c.requestId, Surrender(c))]), d)
  {
    LifetimeTimeoutIs(c);
    LifetimeTimerIsNoRecord(c);
    FailAfter(c, StopLifetimeTimer(c));
    d := Step(c, LifetimeTimeout).client;
  }

  lemma GraceTimeoutJudges(c: Client)
    requires Shape(c) && !c.state.Destroyed?
    ensures Judges(c, GraceTimeout, Step(c, GraceTimeout).client)
  {
    NothingJudges(c, GraceTimeout, Step(c, GraceTimeout).client);
  }

  /** A line that makes the client give up. */
  lemma TroubledLineJudges(c: Client, reply: Reply)
    requires Shape(c) && !c.state.Destroyed? && Trouble(c, ReplyLine(reply))
    ensures Judges(c, ReplyLine(reply), Fail(c).client)
  {
    FailGives(c);
  }

  lemma ForeignJudges(c: Client, reply: Reply)
    requires Shape(c) && !c.state.Destroyed? && (reply.Garbage? || reply.id != c.requestId || Over(c) || c.process.None?)
    ensures Judges(c, ReplyLine(reply), Step(c, ReplyLine(reply)).client)
  {
    if !Over(c) && c.process.Some? {
      assert Step(c, ReplyLine(reply)).client == Fail(c).client;
      TroubledLineJudges(c, reply);
    } else {
      NothingJudges(c, ReplyLine(reply), Step(c, ReplyLine(reply)).client);
    }
  }

  lemma FirstReadyJudges(c: Client)
    requires Shape(c) && Attended(c) && (c.state.Cancelling? || (c.state.Waiting? && !c.ready))
    ensures Judges(c, ReplyLine(Reply(c.requestId, ReadyReply)), if c.state.Cancelling? then c else c.(ready := true))
  {
  }

  lemma ReadyJudges(c: Client)
    requires Shape(c) && !c.state.Destroyed? && Attended(c)
    ensures Judges(c, ReplyLine(Reply(c.requestId, ReadyReply)), Step(c, ReplyLine(Reply(c.requestId, ReadyReply))).client)
  {
    if c.state.Cancelling? || (c.state.Waiting? && !c.ready) {
      FirstReadyJudges(c);
    } else {
      TroubledLineJudges(c, Reply(c.requestId, ReadyReply));
    }
  }

  lemma CanceledJudges(c: Client)
    requires Shape(c) && !c.state.Destroyed? && Attended(c)
    ensures Judges(c, ReplyLine(Reply(c.requestId, CanceledReply)), Step(c, ReplyLine(Reply(c.requestId, CanceledReply))).client)
  {
    if c.committed {
      FailGives(c);
    } else {
      ConcludeGives(c, if !c.cancelRequested && c.failed then PhoneUnavailable else RequestCanceled);
    }
  }

  lemma NumbersAgree(pid: real)
    ensures ValidPid(pid) <==> ProcessNumber(pid)
  {
  }

  lemma AcknowledgmentJudges(c: Client, pid: real)
    requires Shape(c) && !c.state.Destroyed? && Attended(c) && c.state.Committed? && ProcessNumber(pid)
    ensures Judges(c, ReplyLine(Reply(c.requestId, ExecutedReply(Some(pid)))), Step(c, ReplyLine(Reply(c.requestId, ExecutedReply(Some(pid))))).client)
  {
    NumbersAgree(pid);
    ConcludeGives(c, LaunchAcknowledged);
  }

  lemma FalseAcknowledgmentFails(c: Client, pid: Option<real>)
    requires Attended(c) && !(c.state.Committed? && pid.Some? && ProcessNumber(pid.value))
    ensures Step(c, ReplyLine(Reply(c.requestId, ExecutedReply(pid)))).client == Fail(c).client
  {
    if pid.Some? {
      NumbersAgree(pid.value);
    }
  }

  lemma FalseAcknowledgmentJudges(c: Client, pid: Option<real>)
    requires Shape(c) && !c.state.Destroyed? && Attended(c) && !(c.state.Committed? && pid.Some? && ProcessNumber(pid.value))
    ensures Judges(c, ReplyLine(Reply(c.requestId, ExecutedReply(pid))), Step(c, ReplyLine(Reply(c.requestId, ExecutedReply(pid)))).client)
  {
    FalseAcknowledgmentFails(c, pid);
    TroubledLineJudges(c, Reply(c.requestId, ExecutedReply(pid)));
  }

  lemma ExecutedJudges(c: Client, pid: Option<real>)
    requires Shape(c) && !c.state.Destroyed? && Attended(c)
    ensures Judges(c, ReplyLine(Reply(c.requestId, ExecutedReply(pid))), Step(c, ReplyLine(Reply(c.requestId, ExecutedReply(pid)))).client)
  {
    if c.state.Committed? && pid.Some? && ProcessNumber(pid.value) {
      AcknowledgmentJudges(c, pid.value);
    } else {
      FalseAcknowledgmentJudges(c, pid);
    }
  }

  lemma RejectionJudges(c: Client, uncertain: bool)
    requires Shape(c) && !c.state.Destroyed? && Attended(c) && !c.committed
    ensures Judges(c, ReplyLine(Reply(c.requestId, ErrorReply(true, uncertain))), Step(c, ReplyLine(Reply(c.requestId, ErrorReply(true, uncertain)))).client)
  {
    ConcludeGives(c, if c.cancelRequested then RequestCanceled else PhoneUnavailable);
  }

  lemma ErrorJudges(c: Client, hasMessage: bool, uncertain: bool)
    requires Shape(c) && !c.state.Destroyed? && Attended(c)
    ensures Judges(c, ReplyLine(Reply(c.requestId, ErrorReply(hasMessage, uncertain))), Step(c, ReplyLine(Reply(c.requestId, ErrorReply(hasMessage, uncertain)))).client)
  {
    if hasMessage && !c.committed {
      RejectionJudges(c, uncertain);
    } else {
      TroubledLineJudges(c, Reply(c.requestId, ErrorReply(hasMessage, uncertain)));
    }
  }

  lemma UnknownJudges(c: Client)
    requires Shape(c) && !c.state.Destroyed? && Attended(c)
    ensures Judges(c, ReplyLine(Reply(c.requestId, UnknownReply)), Step(c, ReplyLine(Reply(c.requestId, UnknownReply))).client)
  {
    TroubledLineJudges(c, Reply(c.requestId, UnknownReply));
  }

  lemma ReplyLineJudges(c: Client, reply: Reply)
    requires Shape(c) && !c.state.Destroyed?
    ensures Judges(c, ReplyLine(reply), Step(c, ReplyLine(reply)).client)
  {
    if reply.Garbage? || reply.id != c.requestId || Over(c) || c.process.None? {
      ForeignJudges(c, reply);
    } else {
      match reply.event {
        case ReadyReply => ReadyJudges(c);
        case CanceledReply => CanceledJudges(c);
        case ExecutedReply(pid) => ExecutedJudges(c, pid);
        case ErrorReply(hasMessage, uncertain) => ErrorJudges(c, hasMessage, uncertain);
        case UnknownReply => UnknownJudges(c);
      }
    }
  }

  lemma OversizedReplyJudges(c: Client)
    requires Shape(c) && !c.state.Destroyed?
    ensures Judges(c, OversizedReply, Step(c, OversizedReply).client)
  {
    FailGives(c);
  }

  /** A call that ends the attempt or asks its helper back. */
  function CalledOffRecord(c: Client): Client {
    c.(cancelRequested := true, state := if Live(c) then Cancelling else Finished,
       verdicts := c.verdicts + if Live(c) then [] else [Verdict(c.requestId, RequestCanceled)])
  }

  lemma DiscardGives(c: Client)
    ensures SameRecord(c.(state := Destroyed), Discard(c))
  {
    if c.process.Some? {
    }
  }

  lemma DestroyGives(c: Client)
    requires !c.state.Destroyed?
    ensures CallsOff(c, Destroy) && !c.cancelRequested ==> SameRecord(CalledOffRecord(c).(state := Destroyed), Step(c, Destroy).client)
    ensures !CallsOff(c, Destroy) || c.cancelRequested ==> SameRecord(c.(state := Destroyed), Step(c, Destroy).client)
  {
    CancelGives(c);
    DiscardGives(Cancel(c).client);
  }

  lemma DestroyJudges(c: Client)
    requires Shape(c) && !c.state.Destroyed?
    ensures Judges(c, Destroy, Step(c, Destroy).client)
  {
    DestroyGives(c);
    DestructionJudges(c, Step(c, Destroy).client);
  }

  lemma DestructionJudges(c: Client, d: Client)
    requires Shape(c) && !c.state.Destroyed?
    requires CallsOff(c, Destroy) && !c.cancelRequested ==> SameRecord(CalledOffRecord(c).(state := Destroyed), d)
    requires !CallsOff(c, Destroy) || c.cancelRequested ==> SameRecord(c.(state := Destroyed), d)
    ensures Judges(c, Destroy, d)
  {
  }

  lemma CallJudges(c: Client, e: Event)
    requires Shape(c) && !c.state.Destroyed? && (e.StartCall? || e.CommitCall? || e.CancelCall? || e.Destroy? || e.ReplyLine? || e.OversizedReply?)
    ensures Judges(c, e, Step(c, e).client)
  {
    match e {
      case StartCall(eligible, usable) => StartCallJudges(c, eligible, usable);
      case CommitCall => CommitCallJudges(c);
      case CancelCall => CancelCallJudges(c);
      case ReplyLine(reply) => ReplyLineJudges(c, reply);
      case OversizedReply => OversizedReplyJudges(c);
      case Destroy => DestroyJudges(c);
    }
  }

  /** One step adds the verdict that is due, and no other. */
  lemma StepJudges(c: Client, e: Event)
    requires Shape(c) && !c.state.Destroyed?
    ensures Judges(c, e, Step(c, e).client)
  {
    match e {
      case ProcessStarted => ProcessStartedJudges(c);
      case ProcessStopped => ProcessStoppedJudges(c);
      case PipeBroken => PipeBrokenJudges(c);
      case ProcessExited => ProcessExitedJudges(c);
      case ProcessError => ProcessErrorJudges(c);
      case StartTimeout => StartTimeoutJudges(c);
      case LifetimeTimeout => LifetimeTimeoutJudges(c);
      case GraceTimeout => GraceTimeoutJudges(c);
      case _ => CallJudges(c, e);
    }
  }

  // ----- the verdicts of a run -----

  /** The client when the event `i` happens. */
  function At(events: seq<Event>, i: nat): Client
    requires i <= |events|
  {
    Run(INITIAL, events[..i])
  }

  predicate HappenedAt(what: (Client, Event) -> bool, events: seq<Event>, i: nat, id: nat)
    requires i < |events|
  {
    At(events, i).requestId == id && what(At(events, i), events[i])
  }

  /** It happened to the attempt `id` in the run. */
  predicate Happened(what: (Client, Event) -> bool, events: seq<Event>, id: nat) {
    exists i: nat :: i < |events| && HappenedAt(what, events, i, id)
  }

  /** Somebody called the attempt off while it was under way. */
  predicate CalledOff(events: seq<Event>, id: nat) {
    Happened(CallsOff, events, id)
  }

  predicate GivenUp(events: seq<Event>, id: nat) {
    Happened(GivesUp, events, id)
  }

  predicate GivenUpByHelper(events: seq<Event>, id: nat) {
    Happened(HelperCancels, events, id)
  }

  /** What a soft verdict must be. */
  predicate Explained(events: seq<Event>, v: Verdict) {
    Soft(v.signal) ==>
      (v.signal.RequestCanceled? <==> CalledOff(events, v.id) || (GivenUpByHelper(events, v.id) && !GivenUp(events, v.id)))
  }

  lemma {:induction false} RunSnoc(c: Client, events: seq<Event>, e: Event)
    ensures Run(c, events + [e]) == Step(Run(c, events), e).client
    decreases |events|
  {
    if events == [] {
      assert Run(Step(c, e).client, []) == Step(c, e).client;
    } else {
      assert (events + [e])[1..] == events[1..] + [e];
      RunSnoc(Step(c, events[0]).client, events[1..], e);
    }
  }

  lemma AtPrefix(what: (Client, Event) -> bool, events: seq<Event>, e: Event, i: nat, id: nat)
    requires i < |events|
    ensures HappenedAt(what, events + [e], i, id) <==> HappenedAt(what, events, i, id)
  {
    assert (events + [e])[..i] == events[..i];
  }

  /** One more event adds to the history what it is itself. */
  lemma HistoryGrows(what: (Client, Event) -> bool, events: seq<Event>, e: Event, id: nat)
    ensures var c := Run(INITIAL, events);
            Happened(what, events + [e], id) <==> Happened(what, events, id) || (c.requestId == id && what(c, e))
  {
    var n := |events|;
    assert (events + [e])[..n] == events;
    assert HappenedAt(what, events + [e], n, id) <==> Run(INITIAL, events).requestId == id && what(Run(INITIAL, events), e);
    forall i: nat | i < n
      ensures HappenedAt(what, events + [e], i, id) <==> HappenedAt(what, events, i, id)
    {
      AtPrefix(what, events, e, i, id);
    }
    if Happened(what, events, id) {
      var i: nat :| i < n && HappenedAt(what, events, i, id);
      assert HappenedAt(what, events + [e], i, id);
    }
  }

  /** What the client's flags know of the history, and that its verdicts fit it. */
  predicate Remembers(events: seq<Event>, c: Client) {
    && (c.cancelRequested <==> CalledOff(events, c.requestId))
    && (c.failed <==> GivenUp(events, c.requestId))
    && (GivenUpByHelper(events, c.requestId) ==> Over(c))
    && (forall i :: 0 <= i < |c.verdicts| ==> Explained(events, c.verdicts[i]))
  }

  /** Nothing has happened yet to an attempt that has not begun. */
  ghost predicate NothingAhead(events: seq<Event>, id: nat) {
    forall n: nat :: n > id ==> !CalledOff(events, n) && !GivenUp(events, n) && !GivenUpByHelper(events, n)
  }

  lemma HistoriesGrow(events: seq<Event>, e: Event, id: nat)
    ensures var c := Run(INITIAL, events);
            && (CalledOff(events + [e], id) <==> CalledOff(events, id) || (c.requestId == id && CallsOff(c, e)))
            && (GivenUp(events + [e], id) <==> GivenUp(events, id) || (c.requestId == id && GivesUp(c, e)))
            && (GivenUpByHelper(events + [e], id) <==> GivenUpByHelper(events, id) || (c.requestId == id && HelperCancels(c, e)))
  {
    HistoryGrows(CallsOff, events, e, id);
    HistoryGrows(GivesUp, events, e, id);
    HistoryGrows(HelperCancels, events, e, id);
  }

  lemma NewVerdictIsExplained(events: seq<Event>, e: Event, v: Verdict)
    requires var c := Run(INITIAL, events); Shape(c) && Remembers(events, c) && Due(c, e) == [v] && !c.state.Destroyed?
    requires NothingAhead(events, Run(INITIAL, events).requestId)
    ensures Explained(events + [e], v)
  {
    if Soft(v.signal) {
      HistoriesGrow(events, e, v.id);
      SoftDueIs(Run(INITIAL, events), e, v);
    }
  }

  lemma SoftDueIs(c: Client, e: Event, v: Verdict)
    requires Shape(c) && !c.state.Destroyed? && Due(c, e) == [v] && Soft(v.signal)
    ensures v.id == Attempt(c, e) && (v.signal.RequestCanceled? <==> IsCancellation(c, e))
    ensures !GivesUp(c, e)
  {
  }

  lemma OldVerdictStaysExplained(events: seq<Event>, e: Event, v: Verdict)
    requires var c := Run(INITIAL, events); Explained(events, v) && (v.id == c.requestId ==> Over(c))
    ensures Explained(events + [e], v)
  {
    HistoriesGrow(events, e, v.id);
  }

  lemma AllExplained(events: seq<Event>, e: Event, d: Client)
    requires var c := Run(INITIAL, events); Inv(c) && Remembers(events, c) && !c.state.Destroyed? && d.verdicts == c.verdicts + Due(c, e)
    requires NothingAhead(events, Run(INITIAL, events).requestId)
    ensures forall i :: 0 <= i < |d.verdicts| ==> Explained(events + [e], d.verdicts[i])
  {
    var c := Run(INITIAL, events);
    forall i | 0 <= i < |d.verdicts|
      ensures Explained(events + [e], d.verdicts[i])
    {
      if i < |c.verdicts| {
        assert d.verdicts[i] == c.verdicts[i];
        OldVerdictStaysExplained(events, e, c.verdicts[i]);
      } else {
        assert Due(c, e) == [d.verdicts[i]];
        NewVerdictIsExplained(events, e, d.verdicts[i]);
      }
    }
  }

  lemma VerdictsStayExplained(events: seq<Event>, e: Event)
    requires var c := Run(INITIAL, events); Inv(c) && Remembers(events, c) && !c.state.Destroyed?
    requires NothingAhead(events, Run(INITIAL, events).requestId)
    ensures var d := Run(INITIAL, events + [e]);
            forall i :: 0 <= i < |d.verdicts| ==> Explained(events + [e], d.verdicts[i])
  {
    RunSnoc(INITIAL, events, e);
    StepJudges(Run(INITIAL, events), e);
    AllExplained(events, e, Run(INITIAL, events + [e]));
  }

  lemma FlagsStayTrue(events: seq<Event>, e: Event)
    requires var c := Run(INITIAL, events); Inv(c) && Remembers(events, c) && !c.state.Destroyed?
    requires NothingAhead(events, Run(INITIAL, events).requestId)
    ensures var d := Run(INITIAL, events + [e]);
            && (d.cancelRequested <==> CalledOff(events + [e], d.requestId))
            && (d.failed <==> GivenUp(events + [e], d.requestId))
            && (GivenUpByHelper(events + [e], d.requestId) ==> Over(d))
  {
    var c, d := Run(INITIAL, events), Run(INITIAL, events + [e]);
    RunSnoc(INITIAL, events, e);
    StepJudges(c, e);
    HistoriesGrow(events, e, d.requestId);
  }

  lemma NothingGrowsAhead(events: seq<Event>, e: Event)
    requires var c := Run(INITIAL, events); Inv(c) && !c.state.Destroyed? && NothingAhead(events, c.requestId)
    ensures NothingAhead(events + [e], Run(INITIAL, events + [e]).requestId)
  {
    var c, d := Run(INITIAL, events), Run(INITIAL, events + [e]);
    RunSnoc(INITIAL, events, e);
    StepJudges(c, e);
    forall n: nat | n > d.requestId
      ensures !CalledOff(events + [e], n) && !GivenUp(events + [e], n) && !GivenUpByHelper(events + [e], n)
    {
      HistoriesGrow(events, e, n);
    }
  }

  lemma DestroyedRemembers(events: seq<Event>, e: Event)
    requires var c := Run(INITIAL, events); Remembers(events, c) && c.state.Destroyed? && NothingAhead(events, c.requestId)
    ensures var d := Run(INITIAL, events + [e]); Remembers(events + [e], d) && NothingAhead(events + [e], d.requestId)
  {
    var c := Run(INITIAL, events);
    RunSnoc(INITIAL, events, e);
    forall n: nat
      ensures CalledOff(events + [e], n) <==> CalledOff(events, n)
      ensures GivenUp(events + [e], n) <==> GivenUp(events, n)
      ensures GivenUpByHelper(events + [e], n) <==> GivenUpByHelper(events, n)
    {
      HistoriesGrow(events, e, n);
    }
  }

  lemma {:induction false} RunRemembers(events: seq<Event>)
    ensures var c := Run(INITIAL, events); Remembers(events, c) && NothingAhead(events, c.requestId)
    decreases |events|
  {
    if events != [] {
      var n := |events| - 1;
      var before, e := events[..n], events[n];
      assert events == before + [e];
      RunRemembers(before);
      P.RunKeepsInv(INITIAL, before);
      if Run(INITIAL, before).state.Destroyed? {
        DestroyedRemembers(before, e);
      } else {
        FlagsStayTrue(before, e);
        VerdictsStayExplained(before, e);
        NothingGrowsAhead(before, e);
      }
    }
  }

  /** Over every run: an attempt judged softly is judged canceled exactly if somebody called it
      off, or if its helper gave it up and the client had not done so before; every other soft
      verdict is `unavailable`. */
  lemma SoftVerdictsAreExplained(events: seq<Event>, i: nat)
    requires i < |Run(INITIAL, events).verdicts| && Soft(Run(INITIAL, events).verdicts[i].signal)
    ensures var v := Run(INITIAL, events).verdicts[i];
            v.signal == if CalledOff(events, v.id) || (GivenUpByHelper(events, v.id) && !GivenUp(events, v.id))
                        then RequestCanceled else PhoneUnavailable
  {
    RunRemembers(events);
  }

  /** The step to `d` has given this verdict. */
  predicate NewVerdict(c: Client, d: Client, v: Verdict) {
    |d.verdicts| > |c.verdicts| && d.verdicts[|c.verdicts|] == v
  }

  lemma JudgedExactly(c: Client, e: Event, d: Client)
    requires Judges(c, e, d)
    ensures Acknowledges(c, e) <==> NewVerdict(c, d, Verdict(c.requestId, LaunchAcknowledged))
    ensures !Acknowledges(c, e) && LeavesUnclear(c, e) <==> NewVerdict(c, d, Verdict(c.requestId, LaunchUncertain))
  {
  }

  /** Over every run: the next event makes a launch acknowledged exactly if it is the helper's
      `executed` with a process number, to a committed client; and uncertain exactly if it is
      any trouble after the commit. */
  lemma CommittedVerdictsAreExplained(events: seq<Event>, e: Event)
    requires !Run(INITIAL, events).state.Destroyed?
    ensures var c, d := Run(INITIAL, events), Run(INITIAL, events + [e]);
            && (Acknowledges(c, e) <==> NewVerdict(c, d, Verdict(c.requestId, LaunchAcknowledged)))
            && (!Acknowledges(c, e) && LeavesUnclear(c, e) <==> NewVerdict(c, d, Verdict(c.requestId, LaunchUncertain)))
  {
    var c := Run(INITIAL, events);
    RunSnoc(INITIAL, events, e);
    P.RunKeepsInv(INITIAL, events);
    StepJudges(c, e);
    JudgedExactly(c, e, Step(c, e).client);
  }

  // ----- what the helper is told -----

  /** The lines one step writes to the current helper. */
  function Told(c: Client, e: Event): seq<Line>
    requires c.process.Some?
  {
    if !c.process.value.writable then []
    else if Introduces(c, e) then [StartLine(c.requestId)]
    else if Commits(c, e) then [CommitLine(c.requestId)]
    else if AsksBack(c, e) && c.startSent && !c.withdrawing then [CancelLine(c.requestId)]
    else []
  }

  /** Its input stays open until it is asked back or the attempt is over. */
  predicate StaysOpen(c: Client, e: Event) {
    && !Next(c, e).Cancelling? && !Next(c, e).Finished? && !Next(c, e).Destroyed?
    && !e.PipeBroken?
  }

  predicate Tells(c: Client, e: Event, d: Client)
    requires c.process.Some?
  {
    var n := |c.released|;
    && n + 1 == |Processes(d)|
    && Processes(d)[n].id == c.process.value.id
    && Processes(d)[n].sent == c.process.value.sent + Told(c, e)
    && (Processes(d)[n].writable <==> c.process.value.writable && StaysOpen(c, e))
  }

  /** The current helper and its input, released or not. */
  predicate HelperIs(c: Client, n: nat, sent: seq<Line>, id: nat, writable: bool) {
    n + 1 == |Processes(c)| && Processes(c)[n].id == id && Processes(c)[n].sent == sent && Processes(c)[n].writable == writable
  }

  lemma FinishTells(c: Client)
    requires c.process.Some?
    ensures HelperIs(Finish(c), |c.released|, c.process.value.sent, c.process.value.id, false)
  {
  }

  lemma WithdrawTells(c: Client)
    requires c.process.Some?
    ensures var p := c.process.value;
            HelperIs(Withdraw(c), |c.released|, p.sent + (if !c.withdrawing && c.startSent && p.writable then [CancelLine(c.requestId)] else []),
                     p.id, c.withdrawing && p.writable)
  {
  }

  lemma FailTells(c: Client)
    requires c.process.Some? && !c.state.Finished?
    ensures var p := c.process.value;
            HelperIs(Fail(c).client, |c.released|,
                     p.sent + (if !c.committed && Live(c) && !c.withdrawing && c.startSent && p.writable then [CancelLine(c.requestId)] else []),
                     p.id, !c.committed && Live(c) && c.withdrawing && p.writable)
  {
    if !c.committed && Live(c) {
      WithdrawTells(c.(failed := true, state := Cancelling));
    } else {
      FinishTells(Judge(c, Surrender(c)));
    }
  }

  lemma CancelTells(c: Client)
    requires c.process.Some? && !c.state.Finished? && !c.committed && !c.cancelRequested
    ensures var p := c.process.value;
            HelperIs(Cancel(c).client, |c.released|,
                     p.sent + (if Live(c) && !c.withdrawing && c.startSent && p.writable then [CancelLine(c.requestId)] else []),
                     p.id, Live(c) && c.withdrawing && p.writable)
  {
    var d := c.(cancelRequested := true, state := Cancelling);
    if Live(c) {
      WithdrawTells(d);
    } else {
      FinishTells(Judge(d, RequestCanceled));
    }
  }

  /** A helper that was asked back hears no more. */
  predicate ShutIn(c: Client) {
    c.state.Cancelling? && c.process.Some? ==> !c.process.value.writable
  }

  /** Giving up, for whatever reason. */
  lemma TroubleTells(c: Client, e: Event, f: Client)
    requires Shape(c) && ShutIn(c) && Attended(c) && Trouble(c, e)
    requires e.ProcessExited? || e.ProcessError? || e.OversizedReply? || e.StartTimeout? || e.LifetimeTimeout? || e.ReplyLine?
    requires f.process.Some? && f.process.value.sent == c.process.value.sent && f.process.value.id == c.process.value.id
    requires f.process.value.writable == c.process.value.writable && (Live(f) <==> StaysLive(c, e)) && !f.state.Finished?
    requires f.released == c.released && f.committed == c.committed && f.withdrawing == c.withdrawing
    requires f.startSent == c.startSent && f.requestId == c.requestId
    ensures Tells(c, e, Fail(f).client)
  {
    FailTells(f);
    TroubleIsTold(c, e, Fail(f).client);
  }

  lemma TroubleIsTold(c: Client, e: Event, d: Client)
    requires Shape(c) && ShutIn(c) && Attended(c) && Trouble(c, e)
    requires e.ProcessExited? || e.ProcessError? || e.OversizedReply? || e.StartTimeout? || e.LifetimeTimeout? || e.ReplyLine?
    requires var p := c.process.value;
             HelperIs(d, |c.released|,
                      p.sent + (if !c.committed && StaysLive(c, e) && !c.withdrawing && c.startSent && p.writable then [CancelLine(c.requestId)] else []),
                      p.id, !c.committed && StaysLive(c, e) && c.withdrawing && p.writable)
    ensures Tells(c, e, d)
  {
  }

  /** A step that leaves the helper and its input as they are. */
  /** The last thing in an attempt. */
  lemma EndIsTold(c: Client, e: Event, d: Client)
    requires Shape(c) && Attended(c) && Told(c, e) == [] && !StaysOpen(c, e)
    requires HelperIs(d, |c.released|, c.process.value.sent, c.process.value.id, false)
    ensures Tells(c, e, d)
  {
  }

  lemma StandsStill(c: Client, e: Event)
    requires Shape(c) && ShutIn(c) && Attended(c) && !Trouble(c, e)
    requires e.StartTimeout? || e.LifetimeTimeout? || e.GraceTimeout? || e.ProcessStopped? || e.StartCall?
    ensures Told(c, e) == [] && (StaysOpen(c, e) || !c.process.value.writable)
  {
  }

  lemma CommitCallTells(c: Client)
    requires Shape(c) && ShutIn(c) && Attended(c)
    ensures Tells(c, CommitCall, Step(c, CommitCall).client)
  {
  }

  lemma CancelCallTells(c: Client)
    requires Shape(c) && ShutIn(c) && Attended(c)
    ensures Tells(c, CancelCall, Step(c, CancelCall).client)
  {
    if !c.committed && !c.cancelRequested {
      CancelTells(c);
    }
  }

  lemma ProcessStartedTells(c: Client)
    requires Shape(c) && ShutIn(c) && Attended(c)
    ensures Tells(c, ProcessStarted, Step(c, ProcessStarted).client)
  {
    if !c.process.value.status.Launching? || c.state.Cancelling? {
      LateStartTells(c);
    } else if c.process.value.writable {
      StartTells(c);
    } else {
      BrokenStartTells(c);
    }
  }

  lemma LateStartTells(c: Client)
    requires Shape(c) && ShutIn(c) && Attended(c) && !Introduces(c, ProcessStarted)
    ensures Tells(c, ProcessStarted, Step(c, ProcessStarted).client)
  {
    LateStartIs(c);
    NothingStarts(c, Step(c, ProcessStarted).client);
  }

  lemma LateStartIs(c: Client)
    requires Shape(c) && ShutIn(c) && Attended(c) && !Introduces(c, ProcessStarted)
    ensures HelperIs(Step(c, ProcessStarted).client, |c.released|, c.process.value.sent, c.process.value.id,
                     c.process.value.writable && !c.state.Cancelling?)
  {
    var p := c.process.value;
    if p.status.Launching? {
      assert Step(c, ProcessStarted).client == c.(startTimer := false, process := Some(Close(p.(status := Running))));
    } else {
      assert Step(c, ProcessStarted).client == c;
    }
  }

  lemma NothingStarts(c: Client, d: Client)
    requires Shape(c) && ShutIn(c) && Attended(c) && !Introduces(c, ProcessStarted)
    requires HelperIs(d, |c.released|, c.process.value.sent, c.process.value.id, c.process.value.writable && !c.state.Cancelling?)
    ensures Tells(c, ProcessStarted, d)
  {
  }

  lemma StartTells(c: Client)
    requires Shape(c) && Introduces(c, ProcessStarted) && c.process.value.writable
    ensures Tells(c, ProcessStarted, Step(c, ProcessStarted).client)
  {
    assert Step(c, ProcessStarted).client == SendStart(c);
  }

  lemma BrokenStartTells(c: Client)
    requires Shape(c) && Introduces(c, ProcessStarted) && !c.process.value.writable
    ensures Tells(c, ProcessStarted, Step(c, ProcessStarted).client)
  {
    FailTells(SendStart(c));
  }

  lemma ProcessStoppedTells(c: Client)
    requires Shape(c) && ShutIn(c) && Attended(c)
    ensures Tells(c, ProcessStopped, Step(c, ProcessStopped).client)
  {
    StandsStill(c, ProcessStopped);
  }

  lemma PipeBrokenTells(c: Client)
    requires Shape(c) && ShutIn(c) && Attended(c)
    ensures Tells(c, PipeBroken, Step(c, PipeBroken).client)
  {
  }

  lemma ProcessExitedTells(c: Client)
    requires Shape(c) && ShutIn(c) && Attended(c)
    ensures Tells(c, ProcessExited, Step(c, ProcessExited).client)
  {
    TroubleTells(c, ProcessExited, Stopped(c));
  }

  lemma ProcessErrorTells(c: Client)
    requires Shape(c) && ShutIn(c) && Attended(c)
    ensures Tells(c, ProcessError, Step(c, ProcessError).client)
  {
    TroubleTells(c, ProcessError, c);
  }

  lemma StartTimeoutTells(c: Client)
    requires Shape(c) && ShutIn(c) && Attended(c)
    ensures Tells(c, StartTimeout, Step(c, StartTimeout).client)
  {
    if c.startTimer {
      TroubleTells(c, StartTimeout, StopStartTimer(c));
    } else {
      StandsStill(c, StartTimeout);
    }
  }

  lemma LifetimeTimeoutTells(c: Client)
    requires Shape(c) && ShutIn(c) && Attended(c)
    ensures Tells(c, LifetimeTimeout, Step(c, LifetimeTimeout).client)
  {
    if c.lifetimeTimer {
      TroubleTells(c, LifetimeTimeout, StopLifetimeTimer(c));
    } else {
      StandsStill(c, LifetimeTimeout);
    }
  }

  lemma GraceTimeoutTells(c: Client)
    requires Shape(c) && ShutIn(c) && Attended(c)
    ensures Tells(c, GraceTimeout, Step(c, GraceTimeout).client)
  {
    StandsStill(c, GraceTimeout);
  }

  /** A line of the helper that does not end the attempt tells it nothing. */
  lemma ReplyLineTells(c: Client, reply: Reply)
    requires Shape(c) && ShutIn(c) && Attended(c)
    ensures Tells(c, ReplyLine(reply), Step(c, ReplyLine(reply)).client)
  {
    var e := ReplyLine(reply);
    if Trouble(c, e) {
      TroubledLineFails(c, reply);
      TroubleTells(c, e, c);
    } else if Readies(c, e) || ReadiesLate(c, e) {
      ReadyTells(c);
    } else {
      FinalLineTells(c, reply);
    }
  }

  lemma TroubledLineFails(c: Client, reply: Reply)
    requires Shape(c) && Trouble(c, ReplyLine(reply))
    ensures Step(c, ReplyLine(reply)).client == Fail(c).client
  {
    if reply.Reply? && reply.event.ExecutedReply? && reply.event.pid.Some? {
      NumbersAgree(reply.event.pid.value);
    }
  }

  lemma ReadyTells(c: Client)
    requires Shape(c) && ShutIn(c) && Attended(c) && (c.state.Cancelling? || (c.state.Waiting? && !c.ready))
    ensures Tells(c, ReplyLine(Reply(c.requestId, ReadyReply)), Step(c, ReplyLine(Reply(c.requestId, ReadyReply))).client)
  {
  }

  lemma FinalLineTells(c: Client, reply: Reply)
    requires Shape(c) && Attended(c)
    requires var e := ReplyLine(reply); Acknowledges(c, e) || HelperCancels(c, e) || HelperRejects(c, e)
    ensures Tells(c, ReplyLine(reply), Step(c, ReplyLine(reply)).client)
  {
    var e := ReplyLine(reply);
    var signal := FinalLineIs(c, reply);
    FinishTells(Judge(c, signal));
    EndIsTold(c, e, Finish(Judge(c, signal)));
  }

  lemma FinalLineIs(c: Client, reply: Reply) returns (signal: Signal)
    requires Shape(c) && Attended(c)
    requires var e := ReplyLine(reply); Acknowledges(c, e) || HelperCancels(c, e) || HelperRejects(c, e)
    ensures Step(c, ReplyLine(reply)).client == Finish(Judge(c, signal))
  {
    if reply.event.ExecutedReply? {
      NumbersAgree(reply.event.pid.value);
      signal := LaunchAcknowledged;
    } else if reply.event.CanceledReply? {
      signal := if !c.cancelRequested && c.failed then PhoneUnavailable else RequestCanceled;
    } else {
      signal := if c.cancelRequested then RequestCanceled else PhoneUnavailable;
    }
  }

  lemma OversizedReplyTells(c: Client)
    requires Shape(c) && ShutIn(c) && Attended(c)
    ensures Tells(c, OversizedReply, Step(c, OversizedReply).client)
  {
    TroubleTells(c, OversizedReply, c);
  }

  lemma DiscardTells(c: Client, n: nat, sent: seq<Line>, id: nat, writable: bool)
    requires HelperIs(c, n, sent, id, writable) && (c.process.Some? ==> n == |c.released|) && (c.process.None? ==> !writable)
    ensures HelperIs(Discard(c), n, sent, id, false)
  {
    if c.process.Some? {
      assert Processes(Discard(c))[|c.released|] == Close(c.process.value);
    }
  }

  lemma DestroyTells(c: Client)
    requires Shape(c) && ShutIn(c) && Attended(c)
    ensures Tells(c, Destroy, Step(c, Destroy).client)
  {
    DestroyIs(c);
    CalledOffTells(c, Cancel(c).client);
    DestructionTells(c, Discard(Cancel(c).client));
  }

  lemma DestroyIs(c: Client)
    requires !c.state.Destroyed?
    ensures Step(c, Destroy).client == Discard(Cancel(c).client)
  {
  }

  lemma CalledOffTells(c: Client, d: Client)
    requires Shape(c) && ShutIn(c) && Attended(c) && d == Cancel(c).client
    ensures var p := c.process.value;
            HelperIs(Discard(d), |c.released|,
                     p.sent + (if !c.committed && !c.cancelRequested && Live(c) && !c.withdrawing && c.startSent && p.writable then [CancelLine(c.requestId)] else []),
                     p.id, false)
  {
    var p := c.process.value;
    CancelKeepsHelper(c);
    if !c.committed && !c.cancelRequested {
      CancelTells(c);
      DiscardTells(d, |c.released|, p.sent + (if Live(c) && !c.withdrawing && c.startSent && p.writable then [CancelLine(c.requestId)] else []),
                   p.id, Live(c) && c.withdrawing && p.writable);
    } else {
      assert d == c;
      DiscardTells(c, |c.released|, p.sent, p.id, p.writable);
    }
  }

  lemma WithdrawKeepsHelper(c: Client)
    ensures Withdraw(c).released == c.released
  {
  }

  lemma FinishLetsGo(c: Client)
    ensures Finish(c).process.None?
  {
  }

  lemma CancelKeepsHelper(c: Client)
    requires c.process.Some?
    ensures Cancel(c).client.process.Some? ==> |Cancel(c).client.released| == |c.released|
  {
    if !c.state.Finished? && !c.committed && !c.cancelRequested {
      var d := c.(cancelRequested := true, state := Cancelling);
      if Live(c) {
        assert Cancel(c).client == Withdraw(d);
        WithdrawKeepsHelper(d);
      } else {
        assert Cancel(c).client == Finish(Judge(d, RequestCanceled));
        FinishLetsGo(Judge(d, RequestCanceled));
      }
    } else {
      assert Cancel(c).client == c;
    }
  }

  lemma DestructionTells(c: Client, d: Client)
    requires Shape(c) && ShutIn(c) && Attended(c)
    requires var p := c.process.value;
             HelperIs(d, |c.released|,
                      p.sent + (if !c.committed && !c.cancelRequested && Live(c) && !c.withdrawing && c.startSent && p.writable then [CancelLine(c.requestId)] else []),
                      p.id, false)
    ensures Tells(c, Destroy, d)
  {
  }

  lemma StartCallTells(c: Client, eligible: bool, usable: bool)
    requires Shape(c) && ShutIn(c) && Attended(c)
    ensures Tells(c, StartCall(eligible, usable), Step(c, StartCall(eligible, usable)).client)
  {
  }

  lemma ProcessEventTells(c: Client, e: Event)
    requires Shape(c) && ShutIn(c) && Attended(c)
    requires e.ProcessStarted? || e.ProcessStopped? || e.ProcessExited? || e.ProcessError? || e.StartTimeout? || e.LifetimeTimeout? || e.GraceTimeout?
    ensures Tells(c, e, Step(c, e).client)
  {
    match e {
      case ProcessStarted => ProcessStartedTells(c);
      case ProcessStopped => ProcessStoppedTells(c);
      case ProcessExited => ProcessExitedTells(c);
      case ProcessError => ProcessErrorTells(c);
      case StartTimeout => StartTimeoutTells(c);
      case LifetimeTimeout => LifetimeTimeoutTells(c);
      case GraceTimeout => GraceTimeoutTells(c);
    }
  }

  /** One step writes to the helper exactly what is due: `start` once it runs, `commit` on the
      call, `cancel` when it is asked back after `start`; and then closes its input. */
  lemma StepTells(c: Client, e: Event)
    requires Shape(c) && ShutIn(c) && Attended(c)
    ensures Tells(c, e, Step(c, e).client)
  {
    match e {
      case CommitCall => CommitCallTells(c);
      case CancelCall => CancelCallTells(c);
      case PipeBroken => PipeBrokenTells(c);
      case ReplyLine(reply) => ReplyLineTells(c, reply);
      case OversizedReply => OversizedReplyTells(c);
      case Destroy => DestroyTells(c);
      case StartCall(eligible, usable) => StartCallTells(c, eligible, usable);
      case _ => ProcessEventTells(c, e);
    }
  }

  lemma StepShutsIn(c: Client, e: Event)
    requires Inv(c) && ShutIn(c)
    ensures ShutIn(Step(c, e).client)
  {
    var d := Step(c, e).client;
    if !c.state.Destroyed? {
      StepJudges(c, e);
      P.StepKeepsInv(c, e);
      if Attended(c) {
        StepTells(c, e);
        SameHelper(c, e, d);
      }
    }
  }

  /** While an attempt goes on its helper is the current one. */
  lemma SameHelper(c: Client, e: Event, d: Client)
    requires Shape(d) && Attended(c) && Tells(c, e, d) && d.state == Next(c, e)
    ensures d.state.Cancelling? ==> d.process.Some? && !d.process.value.writable
  {
  }

  lemma {:induction false} RunShutsIn(c: Client, events: seq<Event>)
    requires Inv(c) && ShutIn(c)
    ensures Inv(Run(c, events)) && ShutIn(Run(c, events))
    decreases |events|
  {
    if events != [] {
      StepShutsIn(c, events[0]);
      P.StepKeepsInv(c, events[0]);
      RunShutsIn(Step(c, events[0]).client, events[1..]);
    }
  }

  /** Over every run: a helper that has its `start` and is asked back over an open channel is
      told `cancel`, as its last line. */
  lemma AskedBackIsTold(events: seq<Event>, e: Event)
    requires var c := Run(INITIAL, events); AsksBack(c, e) && c.state.Waiting? && c.process.value.writable
    ensures var c, d := Run(INITIAL, events), Run(INITIAL, events + [e]);
            HelperIs(d, |c.released|, [StartLine(c.requestId), CancelLine(c.requestId)], c.process.value.id, false)
  {
    RunShutsIn(INITIAL, events);
    RunSnoc(INITIAL, events, e);
    AskedBackNow(Run(INITIAL, events), e);
  }

  lemma AskedBackNow(c: Client, e: Event)
    requires Inv(c) && ShutIn(c) && AsksBack(c, e) && c.state.Waiting? && c.process.value.writable
    ensures HelperIs(Step(c, e).client, |c.released|, [StartLine(c.requestId), CancelLine(c.requestId)], c.process.value.id, false)
  {
    StepTells(c, e);
    assert c.process.value.sent == [StartLine(c.requestId)];
  }

  // ----- what is signalled -----

  /** A verdict is signalled when it is given, and only then. */
  predicate Announced(c: Client, turn: Turn) {
    if turn.signal.Some? && Final(turn.signal.value)
    then turn.client.verdicts == c.verdicts + [Verdict(turn.client.requestId, turn.signal.value)]
    else turn.client.verdicts == c.verdicts
  }

  lemma ConcludeAnnounces(c: Client, signal: Signal)
    requires Final(signal)
    ensures Announced(c, Conclude(c, signal))
  {
    ConcludeGives(c, signal);
  }

  lemma FailAnnounces(c: Client)
    ensures Announced(c, Fail(c))
  {
    FailGives(c);
    ConcludeAnnounces(c, Surrender(c));
  }

  lemma CancelAnnounces(c: Client)
    ensures Announced(c, Cancel(c))
  {
    CancelGives(c);
  }

  lemma CommitAnnounces(c: Client)
    ensures Announced(c, Commit(c))
  {
    if c.process.Some? {
      FailAnnounces(SendCommit(c));
    }
  }

  lemma StartAnnounces(c: Client, eligible: bool, usable: bool)
    ensures Announced(c, Start(c, eligible, usable))
  {
    if c.state.Finished? && !c.committed {
      RestartGives(c);
    }
    FailAnnounces(Restart(c));
  }

  lemma StartedAnnounces(c: Client)
    ensures Announced(c, Started(c))
  {
    if c.process.Some? {
      FailAnnounces(SendStart(c));
    }
  }

  lemma FinalLineAnnounces(c: Client, event: ReplyEvent)
    requires Attended(c) && (event.CanceledReply? || event.ErrorReply?)
    ensures Announced(c, ReadReply(c, Reply(c.requestId, event)))
  {
    FailAnnounces(c);
    if event.CanceledReply? {
      ConcludeAnnounces(c, if !c.cancelRequested && c.failed then PhoneUnavailable else RequestCanceled);
    } else {
      ConcludeAnnounces(c, if c.cancelRequested then RequestCanceled else PhoneUnavailable);
    }
  }

  lemma ExecutedAnnounces(c: Client, pid: Option<real>)
    requires Attended(c)
    ensures Announced(c, ReadReply(c, Reply(c.requestId, ExecutedReply(pid))))
  {
    if c.state.Committed? && pid.Some? && ValidPid(pid.value) {
      ConcludeAnnounces(c, LaunchAcknowledged);
    } else {
      FailAnnounces(c);
    }
  }

  lemma PlainLineAnnounces(c: Client, event: ReplyEvent)
    requires Attended(c) && (event.ReadyReply? || event.UnknownReply?)
    ensures Announced(c, ReadReply(c, Reply(c.requestId, event)))
  {
    FailAnnounces(c);
  }

  lemma LineAnnounces(c: Client, event: ReplyEvent)
    requires Attended(c)
    ensures Announced(c, ReadReply(c, Reply(c.requestId, event)))
  {
    match event {
      case ExecutedReply(pid) => ExecutedAnnounces(c, pid);
      case ReadyReply => PlainLineAnnounces(c, event);
      case UnknownReply => PlainLineAnnounces(c, event);
      case _ => FinalLineAnnounces(c, event);
    }
  }

  lemma ReplyAnnounces(c: Client, reply: Reply)
    requires !c.state.Destroyed?
    ensures Announced(c, ReadReply(c, reply))
  {
    if c.state.Finished? || c.process.None? {
    } else if reply.Garbage? || reply.id != c.requestId {
      FailAnnounces(c);
    } else {
      LineAnnounces(c, reply.event);
    }
  }

  lemma ExitAnnounces(c: Client)
    ensures Announced(c, Step(c, ProcessExited))
  {
    if c.process.Some? {
      FailAnnounces(Stopped(c));
    }
  }

  lemma TimeoutAnnounces(c: Client, e: Event)
    requires e.StartTimeout? || e.LifetimeTimeout?
    ensures Announced(c, Step(c, e))
  {
    if e.StartTimeout? {
      StartTimerIsNoRecord(c);
      FailAnnounces(StopStartTimer(c));
    } else {
      LifetimeTimerIsNoRecord(c);
      FailAnnounces(StopLifetimeTimer(c));
    }
  }

  lemma ErrorAnnounces(c: Client)
    ensures Announced(c, Step(c, ProcessError)) && Announced(c, Step(c, OversizedReply))
  {
    FailAnnounces(c);
  }

  lemma ExpireAnnounces(c: Client)
    ensures Announced(c, Expire(c))
  {
    CancelAnnounces(c);
    DiscardGives(Cancel(c).client);
  }

  lemma QuietAnnounces(c: Client, e: Event)
    requires e.ProcessStopped? || e.PipeBroken? || e.GraceTimeout?
    ensures Announced(c, Step(c, e))
  {
    if c.process.Some? {
    }
  }

  lemma StepAnnounces(c: Client, e: Event)
    ensures Announced(c, Step(c, e))
  {
    if !c.state.Destroyed? {
      match e {
        case StartCall(eligible, usable) => StartAnnounces(c, eligible, usable);
        case CommitCall => CommitAnnounces(c);
        case CancelCall => CancelAnnounces(c);
        case ProcessStarted => StartedAnnounces(c);
        case ReplyLine(reply) => ReplyAnnounces(c, reply);
        case ProcessExited => ExitAnnounces(c);
        case StartTimeout => TimeoutAnnounces(c, e);
        case LifetimeTimeout => TimeoutAnnounces(c, e);
        case ProcessError => ErrorAnnounces(c);
        case OversizedReply => ErrorAnnounces(c);
        case Destroy => ExpireAnnounces(c);
        case _ => QuietAnnounces(c, e);
      }
    }
  }

  /** `ready` is passed on exactly when the helper says so for the first time. */
  lemma FailIsNotReady(c: Client)
    ensures Fail(c).signal != Some(ReadyToCommit)
  {
  }

  lemma OwnLineReadies(c: Client, event: ReplyEvent)
    requires Shape(c) && Attended(c)
    ensures ReadReply(c, Reply(c.requestId, event)).signal == Some(ReadyToCommit) <==> event.ReadyReply? && c.state.Waiting? && !c.ready
  {
    FailIsNotReady(c);
  }

  lemma LineReadies(c: Client, reply: Reply)
    requires Shape(c) && !c.state.Destroyed?
    ensures Step(c, ReplyLine(reply)).signal == Some(ReadyToCommit) <==> Readies(c, ReplyLine(reply))
  {
    FailIsNotReady(c);
    if Attended(c) && reply.Reply? && reply.id == c.requestId {
      OwnLineReadies(c, reply.event);
    }
  }

  lemma EndReadiesNothing(c: Client, e: Event)
    requires e.ProcessExited? || e.ProcessError? || e.OversizedReply?
    ensures Step(c, e).signal != Some(ReadyToCommit)
  {
    if e.ProcessExited? {
      FailIsNotReady(Stopped(c));
    } else {
      FailIsNotReady(c);
    }
  }

  lemma TimeoutReadiesNothing(c: Client, e: Event)
    requires e.StartTimeout? || e.LifetimeTimeout?
    ensures Step(c, e).signal != Some(ReadyToCommit)
  {
    if e.StartTimeout? {
      FailIsNotReady(StopStartTimer(c));
    } else {
      FailIsNotReady(StopLifetimeTimer(c));
    }
  }

  lemma CancelReadiesNothing(c: Client)
    ensures Cancel(c).signal != Some(ReadyToCommit)
  {
  }

  lemma NothingElseReadies(c: Client, e: Event)
    requires !e.ReplyLine? && !e.StartCall? && !e.ProcessStarted? && !e.CommitCall?
    ensures Step(c, e).signal != Some(ReadyToCommit)
  {
    if e.ProcessExited? || e.ProcessError? || e.OversizedReply? {
      EndReadiesNothing(c, e);
    } else if e.StartTimeout? || e.LifetimeTimeout? {
      TimeoutReadiesNothing(c, e);
    } else {
      CancelReadiesNothing(c);
    }
  }

  lemma StartReadiesNothing(c: Client, e: Event)
    requires e.StartCall? || e.ProcessStarted? || e.CommitCall?
    ensures Step(c, e).signal != Some(ReadyToCommit)
  {
    FailIsNotReady(Restart(c));
    if c.process.Some? {
      FailIsNotReady(SendStart(c));
      FailIsNotReady(SendCommit(c));
    }
  }

  lemma ReadyIsSignalled(c: Client, e: Event)
    requires Shape(c) && !c.state.Destroyed?
    ensures Step(c, e).signal == Some(ReadyToCommit) <==> Readies(c, e)
  {
    if e.ReplyLine? {
      LineReadies(c, e.reply);
    } else if e.StartCall? || e.ProcessStarted? || e.CommitCall? {
      StartReadiesNothing(c, e);
    } else {
      NothingElseReadies(c, e);
    }
  }

  lemma ExpireIsSoft(c: Client)
    ensures Expire(c).signal.Some? ==> Expire(c).signal == Some(RequestCanceled)
  {
  }
}
