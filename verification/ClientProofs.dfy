/** What every run of a client keeps, and what it can never do. */
module ClientProofs {
  import opened Protocol
  import opened ClientSteps

  /** A client whose current attempt has no verdict yet. */
  predicate Undecided(c: Client) {
    && Open(c)
    && History(c)
    && Judged(c)
    && (c.process.Some? ==> c.process.value.id == c.requestId)
    && (c.process.Some? && !c.committed ==> Withdrawn(c.process.value.sent, c.requestId))
    && (c.committed ==> c.process.Some? && Chosen(c.process.value.sent, c.requestId))
  }

  lemma AppendProcess(rs: seq<Process>, p: Process, id: nat, spent: bool)
    requires HistoryOf(rs, id, true, false)
    requires p.id == id && (if spent then Chosen(p.sent, id) else Withdrawn(p.sent, id))
    ensures HistoryOf(rs + [p], id, false, spent)
  {
  }

  lemma AppendVerdict(vs: seq<Verdict>, v: Verdict, committed: bool)
    requires VerdictsOf(vs, v.id, true, committed)
    requires Final(v.signal) && (committed <==> !Soft(v.signal))
    ensures VerdictsOf(vs + [v], v.id, false, committed)
  {
  }

  lemma ConcludeKeepsInv(c: Client, signal: Signal)
    requires Undecided(c) && Final(signal) && (c.committed <==> !Soft(signal))
    ensures Inv(Conclude(c, signal).client)
  {
    var d := Conclude(c, signal).client;
    if c.process.Some? {
      AppendProcess(c.released, Close(c.process.value), c.requestId, c.committed);
      assert d.released == c.released + [Close(c.process.value)];
    } else {
      assert d.released == c.released;
    }
    assert History(d);
    AppendVerdict(c.verdicts, Verdict(c.requestId, signal), c.committed);
    assert d.verdicts == c.verdicts + [Verdict(c.requestId, signal)];
    assert Judged(d);
  }

  lemma WithdrawKeepsInv(c: Client)
    requires Undecided(c) && c.process.Some? && !c.committed && c.state.Cancelling?
    requires
      || c.withdrawing
      || (!c.startSent && |c.process.value.sent| == 0)
      || (c.startSent && |c.process.value.sent| == 1)
      || (c.startSent && !c.process.value.writable)
    ensures Inv(Withdraw(c))
  {
    var d := Withdraw(c);
    assert d.released == c.released && d.verdicts == c.verdicts && d.requestId == c.requestId;
    assert d.state == c.state && d.committed == c.committed && d.process.Some?;
    assert History(d) && Judged(d);
    if !c.withdrawing {
      var p := c.process.value;
      assert d.process.value.sent == if c.startSent && p.writable then p.sent + [CancelLine(c.requestId)] else p.sent;
    }
  }

  lemma FailKeepsInv(c: Client)
    requires Inv(c) && !c.state.Destroyed?
    ensures Inv(Fail(c).client)
  {
    if c.state.Finished? {
    } else if !c.committed && Alive(c) {
      WithdrawKeepsInv(c.(failed := true, state := Cancelling));
    } else {
      ConcludeKeepsInv(c, if c.committed then LaunchUncertain else if c.cancelRequested then RequestCanceled else PhoneUnavailable);
    }
  }

  lemma CancelKeepsInv(c: Client)
    requires Inv(c) && !c.state.Destroyed?
    ensures Inv(Cancel(c).client)
  {
    if !(c.state.Finished? || c.committed || c.cancelRequested) {
      var d := c.(cancelRequested := true, state := Cancelling);
      if Alive(d) {
        WithdrawKeepsInv(d);
      } else {
        ConcludeKeepsInv(d, RequestCanceled);
      }
    }
  }

  lemma CommitKeepsInv(c: Client)
    requires Inv(c)
    ensures Inv(Commit(c).client)
  {
    if c.state.Waiting? && c.ready {
      assert Inv(SendCommit(c));
      FailKeepsInv(SendCommit(c));
    }
  }

  lemma RestartKeepsInv(c: Client)
    requires Inv(c)
    ensures Inv(Restart(c))
  {
  }

  lemma LaunchKeepsInv(d: Client)
    requires Inv(d) && d.state.Idle?
    ensures Inv(Launch(d))
  {
    var e := Launch(d);
    assert e.released == d.released && e.verdicts == d.verdicts && e.requestId == d.requestId && !e.committed;
    assert Shape(e);
  }

  lemma StartKeepsInv(c: Client, eligible: bool, usable: bool)
    requires Inv(c) && !c.state.Destroyed?
    ensures Inv(Start(c, eligible, usable).client)
  {
    var d := Restart(c);
    RestartKeepsInv(c);
    if d.state.Idle? {
      if !eligible || !usable {
        FailKeepsInv(d);
      } else {
        LaunchKeepsInv(d);
      }
    }
  }

  lemma SendStartKeepsInv(c: Client)
    requires Inv(c) && c.state.Starting? && c.process.value.writable
    ensures Inv(SendStart(c))
  {
    var d := SendStart(c);
    assert d.process.value.sent == c.process.value.sent + [StartLine(c.requestId)];
    assert d.released == c.released && d.verdicts == c.verdicts && d.requestId == c.requestId && d.committed == c.committed;
    assert Shape(d);
  }

  lemma UnsentStartKeepsInv(c: Client)
    requires Inv(c) && c.state.Starting? && !c.process.value.writable
    ensures Inv(Fail(SendStart(c)).client)
  {
    var d := SendStart(c).(failed := true, state := Cancelling);
    assert d.process.value.sent == c.process.value.sent;
    assert d.released == c.released && d.verdicts == c.verdicts && d.requestId == c.requestId && d.committed == c.committed;
    assert Undecided(d);
    WithdrawKeepsInv(d);
  }

  lemma LateStartKeepsInv(c: Client)
    requires Inv(c) && c.state.Cancelling? && c.process.value.status.Launching?
    ensures Inv(Started(c).client)
  {
    var d := Started(c).client;
    assert d.process.value.sent == c.process.value.sent && d.process.value.id == c.process.value.id;
    assert d.released == c.released && d.verdicts == c.verdicts && d.requestId == c.requestId && d.committed == c.committed;
    assert Shape(d);
  }

  lemma StartedKeepsInv(c: Client)
    requires Inv(c)
    ensures Inv(Started(c).client)
  {
    if c.process.Some? && c.process.value.status.Launching? {
      if c.state.Cancelling? {
        LateStartKeepsInv(c);
      } else if c.process.value.writable {
        SendStartKeepsInv(c);
      } else {
        UnsentStartKeepsInv(c);
      }
    }
  }

  /** The five ways a line can move the client. */
  lemma ReadReplyForms(c: Client, reply: Reply)
    ensures var turn := ReadReply(c, reply);
            || turn == Fail(c)
            || turn == Turn(c, None)
            || (c.state.Waiting? && turn == Turn(c.(ready := true), Some(ReadyToCommit)))
            || (c.state.Committed? && turn == Conclude(c, LaunchAcknowledged))
            || (c.process.Some? && !c.committed && (turn == Conclude(c, RequestCanceled) || turn == Conclude(c, PhoneUnavailable)))
  {
  }

  lemma ReadReplyKeepsInv(c: Client, reply: Reply)
    requires Inv(c) && !c.state.Destroyed?
    ensures Inv(ReadReply(c, reply).client)
  {
    ReadReplyForms(c, reply);
    FailKeepsInv(c);
    if c.process.Some? {
      if c.committed {
        ConcludeKeepsInv(c, LaunchAcknowledged);
      } else {
        ConcludeKeepsInv(c, RequestCanceled);
        ConcludeKeepsInv(c, PhoneUnavailable);
      }
    }
  }

  /** The environment may stop a process or break its pipe at any time. */
  lemma EnvironmentKeepsInv(c: Client, p: Process)
    requires Inv(c) && c.process.Some?
    requires p.id == c.process.value.id && p.sent == c.process.value.sent
    requires p.status == c.process.value.status || p.status.NotRunning?
    ensures Inv(WithProcess(c, p))
  {
  }

  /** Timers and the termination flag play no part in the invariant. */
  lemma TimersKeepInv(c: Client, start: bool, lifetime: bool, grace: bool, terminated: bool)
    requires Inv(c)
    ensures Inv(SetTimers(c, start, lifetime, grace, terminated))
  {
    var d := SetTimers(c, start, lifetime, grace, terminated);
    assert d.state == c.state && d.process == c.process;
    assert Shape(d);
  }

  lemma ExpireKeepsInv(c: Client)
    requires Inv(c) && !c.state.Destroyed?
    ensures Inv(Expire(c).client)
  {
    CancelKeepsInv(c);
    DiscardKeepsInv(Cancel(c).client);
  }

  lemma DiscardKeepsHistory(c: Client)
    requires Shape(c) && History(c)
    ensures HistoryOf(Release(c).released, c.requestId, false, c.committed)
  {
    if c.process.Some? {
      AppendProcess(c.released, Close(c.process.value), c.requestId, c.committed);
    }
  }

  /** A closed attempt asks less of its verdicts than an open one. */
  lemma ClosingKeepsVerdicts(vs: seq<Verdict>, id: nat, open: bool, committed: bool)
    requires VerdictsOf(vs, id, open, committed)
    ensures VerdictsOf(vs, id, false, committed)
  {
    forall i | 0 <= i < |vs|
      ensures vs[i].id <= id && Final(vs[i].signal)
    {
    }
  }

  lemma DiscardedIsSettled(d: Client)
    requires d.state.Destroyed? && d.process.None?
    requires HistoryOf(d.released, d.requestId, false, d.committed) && VerdictsOf(d.verdicts, d.requestId, false, d.committed)
    ensures Inv(d)
  {
  }

  lemma DiscardKeepsFields(c: Client)
    ensures var d := Discard(c);
            && d.state.Destroyed? && d.process.None? && d.released == Release(c).released
            && d.requestId == c.requestId && d.committed == c.committed && d.verdicts == c.verdicts
  {
    if c.process.Some? {
    }
  }

  lemma DiscardKeepsInv(c: Client)
    requires Inv(c)
    ensures Inv(Discard(c))
  {
    DiscardKeepsHistory(c);
    ClosingKeepsVerdicts(c.verdicts, c.requestId, Open(c), c.committed);
    DiscardKeepsFields(c);
    DiscardedIsSettled(Discard(c));
  }

  lemma TimeoutKeepsInv(c: Client, start: bool, lifetime: bool)
    requires Inv(c) && !c.state.Destroyed?
    ensures Inv(Fail(SetTimers(c, start, lifetime, c.graceTimer, c.terminationAttempted)).client)
  {
    TimersKeepInv(c, start, lifetime, c.graceTimer, c.terminationAttempted);
    FailKeepsInv(SetTimers(c, start, lifetime, c.graceTimer, c.terminationAttempted));
  }

  lemma ProcessKeepsInv(c: Client)
    requires Inv(c) && c.process.Some?
    ensures Inv(Stopped(c)) && Inv(Broken(c))
  {
    EnvironmentKeepsInv(c, c.process.value.(status := NotRunning));
    EnvironmentKeepsInv(c, Close(c.process.value));
  }

  lemma CallKeepsInv(c: Client, e: Event)
    requires Inv(c) && !c.state.Destroyed? && (e.StartCall? || e.CommitCall? || e.CancelCall? || e.Destroy?)
    ensures Inv(Step(c, e).client)
  {
    match e {
      case StartCall(eligible, usable) => StartKeepsInv(c, eligible, usable);
      case CommitCall => CommitKeepsInv(c);
      case CancelCall => CancelKeepsInv(c);
      case Destroy => ExpireKeepsInv(c);
    }
  }

  lemma TimerKeepsInv(c: Client, e: Event)
    requires Inv(c) && !c.state.Destroyed? && (e.StartTimeout? || e.LifetimeTimeout? || e.GraceTimeout?)
    ensures Inv(Step(c, e).client)
  {
    match e {
      case StartTimeout => TimeoutKeepsInv(c, false, c.lifetimeTimer);
      case LifetimeTimeout => TimeoutKeepsInv(c, c.startTimer, false);
      case GraceTimeout => TimersKeepInv(c, c.startTimer, c.lifetimeTimer, Grace(c).graceTimer, Grace(c).terminationAttempted);
    }
  }

  lemma OutputKeepsInv(c: Client, e: Event)
    requires Inv(c) && !c.state.Destroyed? && (e.ReplyLine? || e.OversizedReply? || e.ProcessError?)
    ensures Inv(Step(c, e).client)
  {
    match e {
      case ReplyLine(reply) => ReadReplyKeepsInv(c, reply);
      case OversizedReply => FailKeepsInv(c);
      case ProcessError => FailKeepsInv(c);
    }
  }

  lemma ProcessEventKeepsInv(c: Client, e: Event)
    requires Inv(c) && !c.state.Destroyed? && (e.ProcessStarted? || e.ProcessStopped? || e.PipeBroken? || e.ProcessExited?)
    ensures Inv(Step(c, e).client)
  {
    if e.ProcessStarted? {
      StartedKeepsInv(c);
    } else if c.process.Some? {
      ProcessKeepsInv(c);
      if e.ProcessExited? {
        FailKeepsInv(Stopped(c));
      }
    }
  }

  lemma StepKeepsInv(c: Client, e: Event)
    requires Inv(c)
    ensures Inv(Step(c, e).client)
  {
    if c.state.Destroyed? {
    } else if e.StartCall? || e.CommitCall? || e.CancelCall? || e.Destroy? {
      CallKeepsInv(c, e);
    } else if e.StartTimeout? || e.LifetimeTimeout? || e.GraceTimeout? {
      TimerKeepsInv(c, e);
    } else if e.ReplyLine? || e.OversizedReply? || e.ProcessError? {
      OutputKeepsInv(c, e);
    } else {
      ProcessEventKeepsInv(c, e);
    }
  }

  lemma {:induction false} RunKeepsInv(c: Client, events: seq<Event>)
    requires Inv(c)
    ensures Inv(Run(c, events))
    decreases |events|
  {
    if events != [] {
      StepKeepsInv(c, events[0]);
      RunKeepsInv(Step(c, events[0]).client, events[1..]);
    }
  }

  lemma {:induction false} RunAppend(c: Client, a: seq<Event>, b: seq<Event>)
    ensures Run(c, a + b) == Run(Run(c, a), b)
    decreases |a|
  {
    if a == [] {
      assert a + b == b;
    } else {
      assert (a + b)[1..] == a[1..] + b;
      RunAppend(Step(c, a[0]).client, a[1..], b);
    }
  }

  // ----- what a run can do -----

  /** Helpers keep their place and UUID, and what was written to them stays written. */
  predicate Grew(ps: seq<Process>, qs: seq<Process>) {
    && |ps| <= |qs|
    && forall k :: 0 <= k < |ps| ==> qs[k].id == ps[k].id && ps[k].sent <= qs[k].sent
  }

  /** `d` continues `c`: helpers stay, a verdict once given stays, and a committed client
      keeps its attempt, starts no further helper and gives no soft verdict. */
  predicate Continues(c: Client, d: Client) {
    && Grew(Processes(c), Processes(d))
    && c.verdicts <= d.verdicts
    && (c.committed ==>
          && d.committed
          && d.requestId == c.requestId
          && |Processes(d)| == |Processes(c)|
          && forall i :: |c.verdicts| <= i < |d.verdicts| ==> !Soft(d.verdicts[i].signal))
  }

  /** The current attempt goes on: nothing changes but flags and its own process. */
  predicate Touches(c: Client, d: Client) {
    && d.released == c.released
    && d.verdicts == c.verdicts
    && d.requestId == c.requestId
    && (c.committed ==> d.committed)
    && (c.process.Some? <==> d.process.Some?)
    && (c.process.Some? ==> d.process.value.id == c.process.value.id && c.process.value.sent <= d.process.value.sent)
  }

  lemma TouchContinues(c: Client, d: Client)
    requires Touches(c, d)
    ensures Continues(c, d)
  {
  }

  lemma ReleaseContinues(c: Client)
    ensures Processes(Release(c)) == if c.process.None? then c.released else c.released + [Close(c.process.value)]
    ensures Grew(Processes(c), Processes(Release(c)))
  {
  }

  lemma ConcludeContinues(c: Client, d: Client, signal: Signal)
    requires Touches(c, d) && (d.committed ==> !Soft(signal))
    ensures Continues(c, Conclude(d, signal).client)
  {
    var e := Conclude(d, signal).client;
    ReleaseContinues(d);
    TouchContinues(c, d);
    assert Processes(e) == Processes(Release(d));
    assert e.verdicts == c.verdicts + [Verdict(d.requestId, signal)];
  }

  lemma FailContinues(c: Client, d: Client)
    requires Touches(c, d)
    ensures Continues(c, Fail(d).client)
  {
    var e := Fail(d);
    if e.signal.Some? {
      ConcludeContinues(c, d, e.signal.value);
    } else {
      assert Touches(d, e.client);
      TouchContinues(c, e.client);
    }
  }

  lemma CancelContinues(c: Client)
    ensures Continues(c, Cancel(c).client)
  {
    var d := c.(cancelRequested := true, state := Cancelling);
    if !(c.state.Finished? || c.committed || c.cancelRequested) && !Alive(d) {
      ConcludeContinues(c, d, RequestCanceled);
    } else {
      assert Touches(d, Withdraw(d));
      TouchContinues(c, Cancel(c).client);
    }
  }

  lemma StartContinues(c: Client, eligible: bool, usable: bool)
    requires Inv(c)
    ensures Continues(c, Start(c, eligible, usable).client)
  {
    var d := Restart(c);
    if d.state.Idle? {
      RestartContinues(c, eligible, usable);
    } else {
      TouchContinues(c, c);
    }
  }

  /** A new attempt leaves the earlier helpers where they are. */
  lemma LaunchContinues(c: Client, d: Client)
    requires c.process.None? && d.process.None? && d.released == c.released && d.verdicts == c.verdicts && !c.committed
    ensures Continues(c, Launch(d))
  {
    var e := Launch(d);
    assert e.released == c.released && e.verdicts == c.verdicts;
    assert Processes(c) == c.released && Processes(e) == c.released + [e.process.value];
  }

  lemma RefusalContinues(c: Client, d: Client)
    requires c.process.None? && d.process.None? && d.released == c.released && d.verdicts == c.verdicts && !c.committed
    requires !d.committed && !d.state.Finished?
    ensures Continues(c, Fail(d).client)
  {
    var e := Fail(d).client;
    var signal := if d.cancelRequested then RequestCanceled else PhoneUnavailable;
    assert Fail(d) == Conclude(d, signal);
    assert e.released == c.released && e.verdicts == c.verdicts + [Verdict(d.requestId, signal)] && e.process.None?;
  }

  lemma RestartContinues(c: Client, eligible: bool, usable: bool)
    requires Inv(c) && Restart(c).state.Idle?
    ensures Continues(c, Start(c, eligible, usable).client)
  {
    var d := Restart(c);
    RestartKeepsAttempts(c);
    if !eligible || !usable {
      RefusalContinues(c, d);
    } else {
      LaunchContinues(c, d);
    }
  }

  lemma RestartKeepsAttempts(c: Client)
    requires Inv(c) && Restart(c).state.Idle?
    ensures var d := Restart(c);
            c.process.None? && d.process.None? && d.released == c.released && d.verdicts == c.verdicts && !c.committed && !d.committed
  {
  }

  lemma ReadReplyContinues(c: Client, reply: Reply)
    ensures Continues(c, ReadReply(c, reply).client)
  {
    ReadReplyForms(c, reply);
    FailContinues(c, c);
    TouchContinues(c, c);
    TouchContinues(c, c.(ready := true));
    ConcludeContinues(c, c, LaunchAcknowledged);
    if !c.committed {
      ConcludeContinues(c, c, RequestCanceled);
      ConcludeContinues(c, c, PhoneUnavailable);
    }
  }

  lemma CommitContinues(c: Client)
    ensures Continues(c, Commit(c).client)
  {
    TouchContinues(c, c);
    if c.process.Some? {
      assert Touches(c, SendCommit(c));
      TouchContinues(c, SendCommit(c));
      FailContinues(c, SendCommit(c));
    }
  }

  lemma StartedContinues(c: Client)
    ensures Continues(c, Started(c).client)
  {
    if c.process.None? || !c.process.value.status.Launching? {
      TouchContinues(c, c);
    } else if c.state.Cancelling? {
      assert Touches(c, Started(c).client);
      TouchContinues(c, Started(c).client);
    } else {
      SendStartContinues(c);
      assert Started(c) == Fail(SendStart(c)) || Started(c) == Turn(SendStart(c), Some(WaitingForPhone));
    }
  }

  lemma SendStartContinues(c: Client)
    requires c.process.Some?
    ensures Continues(c, SendStart(c)) && Continues(c, Fail(SendStart(c)).client)
  {
    assert Touches(c, SendStart(c));
    TouchContinues(c, SendStart(c));
    FailContinues(c, SendStart(c));
  }

  lemma ExpireContinues(c: Client)
    requires Inv(c) && !c.state.Destroyed?
    ensures Continues(c, Expire(c).client)
  {
    var d := Cancel(c).client;
    CancelContinues(c);
    ReleaseContinues(d);
    assert Processes(Expire(c).client) == Processes(Release(d));
    assert Expire(c).client.verdicts == d.verdicts;
  }

  lemma ProcessContinues(c: Client, d: Client)
    requires c.process.Some? && (d == Stopped(c) || d == Broken(c))
    ensures Continues(c, d) && Continues(c, Fail(d).client)
  {
    assert Touches(c, d);
    TouchContinues(c, d);
    FailContinues(c, d);
  }

  lemma TimeoutContinues(c: Client, start: bool, lifetime: bool, grace: bool, terminated: bool)
    ensures Continues(c, SetTimers(c, start, lifetime, grace, terminated))
    ensures Continues(c, Fail(SetTimers(c, start, lifetime, grace, terminated)).client)
  {
    TouchContinues(c, SetTimers(c, start, lifetime, grace, terminated));
    FailContinues(c, SetTimers(c, start, lifetime, grace, terminated));
  }

  lemma CallContinues(c: Client, e: Event)
    requires Inv(c) && !c.state.Destroyed? && (e.StartCall? || e.CommitCall? || e.CancelCall? || e.Destroy?)
    ensures Continues(c, Step(c, e).client)
  {
    match e {
      case StartCall(eligible, usable) => StartContinues(c, eligible, usable);
      case CommitCall => CommitContinues(c);
      case CancelCall => CancelContinues(c);
      case Destroy => ExpireContinues(c);
    }
  }

  lemma TimerContinues(c: Client, e: Event)
    requires !c.state.Destroyed? && (e.StartTimeout? || e.LifetimeTimeout? || e.GraceTimeout?)
    ensures Continues(c, Step(c, e).client)
  {
    TouchContinues(c, c);
    match e {
      case StartTimeout => TimeoutContinues(c, false, c.lifetimeTimer, c.graceTimer, c.terminationAttempted);
      case LifetimeTimeout => TimeoutContinues(c, c.startTimer, false, c.graceTimer, c.terminationAttempted);
      case GraceTimeout => TimeoutContinues(c, c.startTimer, c.lifetimeTimer, Grace(c).graceTimer, Grace(c).terminationAttempted);
    }
  }

  lemma OutputContinues(c: Client, e: Event)
    requires !c.state.Destroyed? && (e.ReplyLine? || e.OversizedReply? || e.ProcessError?)
    ensures Continues(c, Step(c, e).client)
  {
    TouchContinues(c, c);
    match e {
      case ReplyLine(reply) => ReadReplyContinues(c, reply);
      case OversizedReply => FailContinues(c, c);
      case ProcessError => FailContinues(c, c);
    }
  }

  lemma ProcessEventContinues(c: Client, e: Event)
    requires !c.state.Destroyed? && (e.ProcessStarted? || e.ProcessStopped? || e.PipeBroken? || e.ProcessExited?)
    ensures Continues(c, Step(c, e).client)
  {
    TouchContinues(c, c);
    if e.ProcessStarted? {
      StartedContinues(c);
    } else if c.process.Some? {
      ProcessContinues(c, if e.PipeBroken? then Broken(c) else Stopped(c));
    }
  }

  lemma StepContinues(c: Client, e: Event)
    requires Inv(c)
    ensures Continues(c, Step(c, e).client)
  {
    if c.state.Destroyed? {
      TouchContinues(c, c);
    } else if e.StartCall? || e.CommitCall? || e.CancelCall? || e.Destroy? {
      CallContinues(c, e);
    } else if e.StartTimeout? || e.LifetimeTimeout? || e.GraceTimeout? {
      TimerContinues(c, e);
    } else if e.ReplyLine? || e.OversizedReply? || e.ProcessError? {
      OutputContinues(c, e);
    } else {
      ProcessEventContinues(c, e);
    }
  }

  /** Every signal means what it says: a terminal one is the verdict on the attempt, a soft
      one means there was no commit, and `ready` comes from a client that may commit. */
  predicate Meant(turn: Turn) {
    turn.signal.Some? ==>
      var c, s := turn.client, turn.signal.value;
      && (Final(s) ==> |c.verdicts| > 0 && c.verdicts[|c.verdicts| - 1] == Verdict(c.requestId, s))
      && (Soft(s) ==> !c.committed)
      && (s.ReadyToCommit? ==> c.state.Waiting? && c.ready)
  }

  lemma ConcludeIsMeant(c: Client, signal: Signal)
    requires Final(signal) && (Soft(signal) ==> !c.committed)
    ensures Meant(Conclude(c, signal)) && Conclude(c, signal).client.committed == c.committed
  {
    var d := Conclude(c, signal).client;
    assert d.verdicts == c.verdicts + [Verdict(c.requestId, signal)];
    assert d.requestId == c.requestId;
  }

  lemma FailIsMeant(c: Client)
    ensures Meant(Fail(c)) && Fail(c).client.committed == c.committed
  {
    if Fail(c).signal.Some? {
      ConcludeIsMeant(c, Fail(c).signal.value);
    }
  }

  lemma ReadReplyIsMeant(c: Client, reply: Reply)
    ensures Meant(ReadReply(c, reply)) && ReadReply(c, reply).client.committed == c.committed
  {
    ReadReplyForms(c, reply);
    FailIsMeant(c);
    ConcludeIsMeant(c, LaunchAcknowledged);
    if !c.committed {
      ConcludeIsMeant(c, RequestCanceled);
      ConcludeIsMeant(c, PhoneUnavailable);
    }
  }

  lemma CancelIsMeant(c: Client)
    ensures Meant(Cancel(c)) && Cancel(c).client.committed == c.committed
  {
    if Cancel(c).signal.Some? {
      ConcludeIsMeant(c.(cancelRequested := true, state := Cancelling), RequestCanceled);
    }
  }

  lemma RestartCommits(c: Client)
    ensures Restart(c).committed == c.committed
  {
  }

  lemma StartIsMeant(c: Client, eligible: bool, usable: bool)
    ensures Meant(Start(c, eligible, usable)) && Start(c, eligible, usable).client.committed == c.committed
  {
    var d := Restart(c);
    RestartCommits(c);
    FailIsMeant(d);
    assert Launch(d).committed == d.committed;
  }

  lemma StartedIsMeant(c: Client)
    ensures Meant(Started(c)) && Started(c).client.committed == c.committed
  {
    if c.process.Some? {
      assert SendStart(c).committed == c.committed;
      FailIsMeant(SendStart(c));
    }
  }

  lemma CommitIsMeant(c: Client)
    requires c.state.Waiting? && c.ready && c.process.Some?
    ensures Meant(Commit(c)) && Commit(c).client.committed
  {
    FailIsMeant(SendCommit(c));
  }

  lemma ExpireIsMeant(c: Client)
    requires !c.state.Destroyed?
    ensures var d := Step(c, Destroy).client;
            d.committed == c.committed && (c.state.Finished? ==> d.verdicts == c.verdicts && d.requestId == c.requestId)
  {
    CancelIsMeant(c);
  }

  lemma TimerIsMeant(c: Client, start: bool, lifetime: bool)
    ensures var turn := Fail(SetTimers(c, start, lifetime, c.graceTimer, c.terminationAttempted));
            Meant(turn) && turn.client.committed == c.committed
    ensures Grace(c).committed == c.committed
  {
    FailIsMeant(SetTimers(c, start, lifetime, c.graceTimer, c.terminationAttempted));
  }

  lemma StoppedIsMeant(c: Client)
    ensures Stopped(c).committed == c.committed && Broken(c).committed == c.committed
    ensures Meant(Fail(Stopped(c))) && Fail(Stopped(c)).client.committed == c.committed
  {
    FailIsMeant(Stopped(c));
  }

  lemma ProcessIsMeant(c: Client, e: Event)
    requires !c.state.Destroyed? && (e.ProcessStarted? || e.ProcessExited? || e.ProcessStopped? || e.PipeBroken?)
    ensures Meant(Step(c, e)) && Step(c, e).client.committed == c.committed
  {
    if e.ProcessStarted? {
      StartedIsMeant(c);
    } else {
      StoppedIsMeant(c);
    }
  }

  lemma OutputIsMeant(c: Client, e: Event)
    requires !c.state.Destroyed? && (e.ReplyLine? || e.OversizedReply? || e.ProcessError?)
    ensures Meant(Step(c, e)) && Step(c, e).client.committed == c.committed
  {
    if e.ReplyLine? {
      ReadReplyIsMeant(c, e.reply);
    } else {
      FailIsMeant(c);
    }
  }

  lemma TimeoutIsMeant(c: Client, e: Event)
    requires !c.state.Destroyed? && (e.StartTimeout? || e.LifetimeTimeout? || e.GraceTimeout?)
    ensures Meant(Step(c, e)) && Step(c, e).client.committed == c.committed
  {
    match e {
      case StartTimeout => TimerIsMeant(c, false, c.lifetimeTimer);
      case LifetimeTimeout => TimerIsMeant(c, c.startTimer, false);
      case GraceTimeout => TimerIsMeant(c, c.startTimer, c.lifetimeTimer);
    }
  }

  lemma StepIsMeant(c: Client, e: Event)
    requires !e.CommitCall? && !e.Destroy?
    ensures Meant(Step(c, e)) && Step(c, e).client.committed == c.committed
  {
    if c.state.Destroyed? {
    } else if e.StartCall? {
      StartIsMeant(c, e.eligible, e.usable);
    } else if e.CancelCall? {
      CancelIsMeant(c);
    } else if e.StartTimeout? || e.LifetimeTimeout? || e.GraceTimeout? {
      TimeoutIsMeant(c, e);
    } else if e.ReplyLine? || e.OversizedReply? || e.ProcessError? {
      OutputIsMeant(c, e);
    } else {
      ProcessIsMeant(c, e);
    }
  }

  lemma {:induction false} RunContinues(c: Client, events: seq<Event>)
    requires Inv(c)
    ensures Continues(c, Run(c, events))
    decreases |events|
  {
    if events == [] {
      TouchContinues(c, c);
    } else {
      var d := Step(c, events[0]).client;
      StepKeepsInv(c, events[0]);
      StepContinues(c, events[0]);
      RunContinues(d, events[1..]);
      ContinuesTransitive(c, d, Run(d, events[1..]));
    }
  }

  lemma ContinuesTransitive(c: Client, d: Client, e: Client)
    requires Continues(c, d) && Continues(d, e)
    ensures Continues(c, e)
  {
  }

  // ----- the client's promises -----

  predicate SentCommit(p: Process) {
    exists i :: 0 <= i < |p.sent| && p.sent[i].CommitLine?
  }

  /** Whatever happens in whatever order, a helper reads nothing, `start`,
      `start cancel` or `start commit`, all with its own UUID. */
  lemma HelperInputLanguage(events: seq<Event>, k: nat)
    requires k < |Processes(Run(INITIAL, events))|
    ensures var p := Processes(Run(INITIAL, events))[k];
            || p.sent == []
            || p.sent == [StartLine(p.id)]
            || p.sent == [StartLine(p.id), CancelLine(p.id)]
            || p.sent == [StartLine(p.id), CommitLine(p.id)]
  {
    RunKeepsInv(INITIAL, events);
    ProcessesAreInLanguage(Run(INITIAL, events), k);
    LanguageHasFourWords(Processes(Run(INITIAL, events))[k]);
  }

  lemma ProcessesAreInLanguage(c: Client, k: nat)
    requires Inv(c) && k < |Processes(c)|
    ensures InLanguage(Processes(c)[k])
  {
  }

  lemma LanguageHasFourWords(p: Process)
    requires InLanguage(p)
    ensures || p.sent == []
            || p.sent == [StartLine(p.id)]
            || p.sent == [StartLine(p.id), CancelLine(p.id)]
            || p.sent == [StartLine(p.id), CommitLine(p.id)]
  {
  }

  /** No attempt is ever judged twice. */
  lemma OneVerdictPerAttempt(events: seq<Event>, i: nat, j: nat)
    requires i < j < |Run(INITIAL, events).verdicts|
    ensures Run(INITIAL, events).verdicts[i].id != Run(INITIAL, events).verdicts[j].id
  {
    RunKeepsInv(INITIAL, events);
  }

  /** A finished client has judged its attempt, last of all, and the verdict fits the commit. */
  lemma FinishedIsJudged(events: seq<Event>)
    requires Run(INITIAL, events).state.Finished?
    ensures Fits(Run(INITIAL, events))
  {
    RunKeepsInv(INITIAL, events);
    LastVerdictFits(Run(INITIAL, events));
  }

  predicate Fits(c: Client) {
    && |c.verdicts| > 0
    && c.verdicts[|c.verdicts| - 1].id == c.requestId
    && (Soft(c.verdicts[|c.verdicts| - 1].signal) <==> !c.committed)
  }

  lemma LastVerdictFits(c: Client)
    requires Judged(c) && c.state.Finished?
    ensures Fits(c)
  {
  }

  /** Only the committed attempt's helper was ever sent a commit, and it is the last one. */
  lemma OnlyLastHelperMayCommit(c: Client, k: nat)
    requires Inv(c) && k < |Processes(c)| && SentCommit(Processes(c)[k])
    ensures c.committed && k == |Processes(c)| - 1 && Processes(c)[k].id == c.requestId
    ensures Chosen(Processes(c)[k].sent, c.requestId)
  {
    assert !Withdrawn(Processes(c)[k].sent, Processes(c)[k].id);
  }

  /** A helper whose attempt was reported canceled or unavailable is never sent a commit,
      neither before the report nor in anything that follows it. */
  lemma SoftVerdictIsTruthful(a: seq<Event>, b: seq<Event>, i: nat, k: nat)
    requires i < |Run(INITIAL, a).verdicts| && Soft(Run(INITIAL, a).verdicts[i].signal)
    requires k < |Processes(Run(INITIAL, a + b))|
    requires Processes(Run(INITIAL, a + b))[k].id == Run(INITIAL, a).verdicts[i].id
    ensures !SentCommit(Processes(Run(INITIAL, a + b))[k])
  {
    var c := Run(INITIAL, a);
    var d := Run(INITIAL, a + b);
    RunKeepsInv(INITIAL, a);
    RunAppend(INITIAL, a, b);
    RunKeepsInv(c, b);
    RunContinues(c, b);
    assert d.verdicts[i] == c.verdicts[i];
    if SentCommit(Processes(d)[k]) {
      OnlyLastHelperMayCommit(d, k);
    }
  }

  /** After a commit there is no further attempt and no word of cancellation. */
  lemma CommittedIsFinal(a: seq<Event>, b: seq<Event>)
    requires Run(INITIAL, a).committed
    ensures var c, d := Run(INITIAL, a), Run(INITIAL, a + b);
            && d.committed && d.requestId == c.requestId && |Processes(d)| == |Processes(c)|
            && forall i :: |c.verdicts| <= i < |d.verdicts| ==> !Soft(d.verdicts[i].signal)
  {
    RunKeepsInv(INITIAL, a);
    RunAppend(INITIAL, a, b);
    RunContinues(Run(INITIAL, a), b);
  }
}
