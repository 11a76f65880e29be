/** Every run of the authority, over any number of helper processes, crashes and an
    arbitrary desktop and phone. */
module AuthorityRuns {
  import opened Protocol
  import opened TextChecks
  import opened A = AuthoritySteps

  datatype System = System(helpers: seq<Helper>, holder: Option<nat>, world: World)

  datatype SystemEvent =
    | Fork
    | PhoneSigns(payload: Payload)
    | Tick(time: nat)
    | HelperEvent(k: nat, event: A.Event)

  function Initial(machine: nat, phoneKey: nat, kdeRoute: bool, account: Text): System {
    System([], None, World(machine, phoneKey, kdeRoute, account, map[], 0, []))
  }

  /** `main` takes the lock without waiting and keeps it until the process is gone. */
  function Lock(s: System, k: nat, intact: bool): System
    requires k < |s.helpers|
  {
    var h := s.helpers[k];
    if !h.phase.Booting? then s
    else if s.holder.None? && intact then
      System(s.helpers[k := h.(phase := AwaitStart)], Some(k), s.world.(rows := Sweep(s.world.rows)))
    else s.(helpers := s.helpers[k := h.(phase := Gone)])
  }

  function Advance(s: System, k: nat, e: A.Event): System
    requires k < |s.helpers|
  {
    var m := A.Step(k, s.helpers[k], s.world, e);
    System(s.helpers[k := m.helper], if m.helper.phase.Gone? && s.holder == Some(k) then None else s.holder, m.world)
  }

  function Step(s: System, e: SystemEvent): System {
    match e
    case Fork => s.(helpers := s.helpers + [NEWBORN])
    case PhoneSigns(p) => s.(world := s.world.(trace := s.world.trace + [Signed(p)]))
    case Tick(time) => s.(world := s.world.(now := s.world.now + time))
    case HelperEvent(k, event) =>
      if k >= |s.helpers| then s
      else if event.Boot? then Lock(s, k, event.intact)
      else Advance(s, k, event)
  }

  function Run(s: System, events: seq<SystemEvent>): System
    decreases |events|
  {
    if events == [] then s else Run(Step(s, events[0]), events[1..])
  }

  // ----- one helper by itself -----

  predicate Busy(phase: Phase) {
    phase.Delivering? || phase.Approving? || phase.Announcing? || phase.AwaitCommit?
  }

  predicate Late(phase: Phase) {
    phase.Accepted? || phase.Launched? || phase.Confirming? || phase.Reporting?
  }

  predicate Ended(phase: Phase) {
    phase.Failing? || phase.CleaningUp? || phase.Withdrawing? || phase.Gone?
  }

  /** The signed payload describes exactly what the helper holds ready to run. */
  predicate Described(h: Helper) {
    h.payload.Some? ==>
      var p := h.payload.value;
      && h.desktopId == Some(p.desktopId)
      && h.requestId == Some(p.requestId)
      && h.directory.Some?
      && p.command == h.wish.command
      && p.application == h.wish.application
      && p.execution == Some(Execution(Argv(h.wish.command), 0, 0, h.directory.value, h.environment))
  }

  predicate Phased(h: Helper) {
    && (h.payload.Some? <==> h.requestId.Some?)
    && (Busy(h.phase) || h.committed ==> h.payload.Some?)
    && (h.phase.Booting? || h.phase.AwaitStart? || h.phase.Discovering? ==> h.payload.None?)
    && (h.phase.Discovering? ==> h.desktopId.Some?)
    && (h.committed ==> Late(h.phase) || Ended(h.phase))
    && (Late(h.phase) ==> h.committed)
    && (h.phase.Withdrawing? ==> !h.committed)
    && (h.phase.Accepted? ==> h.launch.None?)
    && (h.phase.Launched? || h.phase.Confirming? || h.phase.Reporting? ==> h.launch.Some?)
    && (h.launch.Some? ==>
          && h.committed
          && h.directory.Some? && h.requestId.Some?
          && h.launch.value == Launch(h.requestId.value, Argv(h.wish.command), 0, 0, h.directory.value, h.environment))
  }

  /** The wish passed `validate_start`, and the child's environment was built from it. */
  predicate Checked(h: Helper, account: Text) {
    h.phase.Discovering? || h.payload.Some? ==>
      ValidStart(h.wish) && h.environment == Base(account) + h.wish.environment
  }

  /** What a reply, once written, says about the helper for ever. */
  predicate True(reply: ReplyEvent, launched: bool, committed: bool, ended: bool, closed: bool) {
    match reply
    case ExecutedReply(_) => launched
    case CanceledReply => !committed && ended
    case ErrorReply(_, uncertain) => (uncertain <==> committed) && closed
    case ReadyReply => true
    case UnknownReply => false
  }

  predicate AllTrue(out: seq<ReplyEvent>, launched: bool, committed: bool, ended: bool, closed: bool) {
    forall i :: 0 <= i < |out| ==> True(out[i], launched, committed, ended, closed)
  }

  predicate Closed(phase: Phase) {
    phase.CleaningUp? || phase.Withdrawing? || phase.Gone?
  }

  predicate Spoke(h: Helper) {
    AllTrue(h.out, h.launch.Some?, h.committed, Ended(h.phase), Closed(h.phase))
  }

  /** A receipt is mailed only for a launch, a withdrawal only by a helper that never launches. */
  predicate Mailed(h: Helper) {
    && (ReceiptMail in h.mail ==> h.launch.Some?)
    && (CancelMail in h.mail ==> !h.committed && h.phase.Gone?)
  }

  predicate Sound(h: Helper) {
    Described(h) && Phased(h) && Spoke(h) && Mailed(h)
  }

  lemma SendIsTrue(h: Helper, reply: ReplyEvent, output: Output, launched: bool, committed: bool, ended: bool, closed: bool)
    requires AllTrue(h.out, launched, committed, ended, closed) && True(reply, launched, committed, ended, closed)
    ensures AllTrue(Send(h, reply, output).out, launched, committed, ended, closed)
  {
  }

  lemma AbortIsSound(h: Helper)
    requires Described(h) && Phased(h) && Spoke(h) && Mailed(h) && !Ended(h.phase)
    ensures Sound(Abort(h))
  {
    assert forall i :: 0 <= i < |h.out| ==> True(h.out[i], h.launch.Some?, h.committed, Ended(h.phase), Closed(h.phase));
  }

  lemma DesertIsSound(h: Helper, output: Output)
    requires Sound(h) && !h.committed && !Ended(h.phase)
    ensures Sound(Desert(h, output))
  {
    AbortIsSound(h);
    SendIsTrue(Abort(h), CanceledReply, output, h.launch.Some?, false, true, false);
  }

  lemma StartIsSound(h: Helper, w: World, line: DesktopLine)
    requires Sound(h) && h.phase.AwaitStart?
    ensures Sound(ReadStart(h, w, line))
  {
    AbortIsSound(h);
    if !line.Unreadable? {
      AbortIsSound(h.(desktopId := Some(line.id)));
    }
  }

  lemma DiscoverIsSound(h: Helper, w: World, e: A.Event)
    requires Sound(h) && h.phase.Discovering? && e.Discovered?
    ensures Sound(Discover(h, w, e).helper)
  {
    DesertIsSound(h, e.output);
    AbortIsSound(h);
    if e.directory.Some? {
      var p := MakePayload(h, w, e.directory.value, e.requestId, e.issued);
      var g := h.(directory := e.directory, requestId := Some(e.requestId), payload := Some(p));
      var f := g.(phase := Delivering);
      assert Described(g) && Phased(f) && Spoke(f);
      assert Sound(f);
      AbortIsSound(f);
      assert Abort(g) == Abort(f);
    }
  }

  lemma ApproveIsSound(k: nat, h: Helper, w: World, answer: Answer, output: Output)
    requires Sound(h) && h.phase.Approving?
    ensures Sound(Approve(k, h, w, answer, output).helper)
  {
    DesertIsSound(h, output);
    AbortIsSound(h);
    var g := Approve(k, h, w, answer, output).helper;
    assert h.watch.Watching? && Verifies(h, w, answer) ==> g.out == h.out && g.mail == h.mail && g.phase == Announcing;
    assert h.watch.Watching? && Verifies(h, w, answer) ==> Described(g) && Phased(g) && Spoke(g) && Mailed(g);
  }

  lemma CommitIsSound(k: nat, h: Helper, w: World, e: A.Event)
    requires Sound(h) && h.phase.AwaitCommit? && e.CommitRead?
    ensures Sound(AcceptCommit(k, h, w, e).helper)
  {
    DesertIsSound(h, e.output);
    AbortIsSound(h);
    CommitKeepsTruth(h, h.proof.(takenAt := |w.trace|));
  }

  lemma CommitKeepsTruth(h: Helper, proof: Proof)
    requires Sound(h) && h.phase.AwaitCommit?
    ensures Sound(h.(phase := Accepted, committed := true, proof := proof))
  {
    var g := h.(phase := Accepted, committed := true, proof := proof);
    assert Described(g) && Phased(g) && Mailed(g);
    forall i | 0 <= i < |g.out|
      ensures True(g.out[i], g.launch.Some?, true, false, false)
    {
      assert True(h.out[i], h.launch.Some?, false, false, false);
    }
    assert Spoke(g);
  }

  lemma SpawnIsSound(k: nat, h: Helper, w: World, ok: bool)
    requires Sound(h) && h.phase.Accepted?
    ensures Sound(Spawn(k, h, w, ok).helper)
  {
    AbortIsSound(h);
    if ok {
      var g := Spawn(k, h, w, ok).helper;
      assert Described(g) && Phased(g) && Mailed(g);
      forall i | 0 <= i < |g.out|
        ensures True(g.out[i], true, true, false, false)
      {
        assert True(h.out[i], false, true, false, false);
      }
      assert Spoke(g);
    }
  }

  /** A helper that only moves on to a later phase keeps its record sound. */
  lemma MoveIsSound(h: Helper, phase: Phase)
    requires Sound(h) && (Ended(h.phase) ==> Ended(phase)) && (Closed(h.phase) ==> Closed(phase)) && (h.phase.Gone? ==> phase.Gone?)
    requires Phased(h.(phase := phase))
    ensures Sound(h.(phase := phase))
  {
    var g := h.(phase := phase);
    forall i | 0 <= i < |g.out|
      ensures True(g.out[i], g.launch.Some?, g.committed, Ended(phase), Closed(phase))
    {
      assert True(h.out[i], h.launch.Some?, h.committed, Ended(h.phase), Closed(h.phase));
    }
    assert Described(g) && Spoke(g);
  }

  lemma ReportIsSound(h: Helper, pid: nat, output: Output)
    requires Sound(h) && h.phase.Reporting?
    ensures Sound(Send(h, ExecutedReply(Some(pid as real)), output).(phase := Failing, terminalSent := Drained(h, output)))
    ensures Sound(Send(h, ExecutedReply(Some(pid as real)), output).(phase := CleaningUp, terminalSent := Drained(h, output)))
  {
    var f := Send(h, ExecutedReply(Some(pid as real)), output);
    SendIsTrue(h, ExecutedReply(Some(pid as real)), output, true, true, false, false);
    assert Sound(f);
    MoveIsSound(f, Failing);
    MoveIsSound(f, CleaningUp);
    var g := f.(phase := Failing, terminalSent := Drained(h, output));
    assert Spoke(g) && Phased(g) && Described(g);
    var g' := f.(phase := CleaningUp, terminalSent := Drained(h, output));
    assert Spoke(g') && Phased(g') && Described(g');
  }

  lemma SendErrorIsSound(h: Helper, output: Output)
    requires Sound(h) && h.phase.Failing?
    ensures Sound(SendError(h, output))
  {
    MoveIsSound(h, CleaningUp);
    SendIsTrue(h.(phase := CleaningUp), ErrorReply(true, h.committed), output, h.launch.Some?, h.committed, true, true);
  }

  lemma ReadySentIsSound(h: Helper, output: Output)
    requires Sound(h) && h.phase.Announcing?
    ensures Sound(Send(h, ReadyReply, output).(phase := AwaitCommit)) && Sound(Abort(Send(h, ReadyReply, output)))
  {
    SendIsTrue(h, ReadyReply, output, h.launch.Some?, h.committed, false, false);
    var f := Send(h, ReadyReply, output);
    assert Described(f) && Phased(f) && Spoke(f);
    MoveIsSound(f, AwaitCommit);
    AbortIsSound(f);
  }

  lemma MailIsSound(h: Helper, ok: bool)
    requires Sound(h)
    ensures h.phase.Confirming? ==> Sound(h.(phase := Reporting(ok), mail := h.mail + [ReceiptMail]))
    ensures h.phase.Withdrawing? ==> Sound(h.(phase := Gone, mail := h.mail + [CancelMail]))
  {
    if h.phase.Confirming? {
      MoveIsSound(h, Reporting(ok));
    } else if h.phase.Withdrawing? {
      MoveIsSound(h, Gone);
    }
  }

  lemma FlagsAreSound(h: Helper, watch: Watch, proof: Proof, closing: bool)
    requires Sound(h)
    ensures Sound(h.(watch := watch, proof := proof)) && Sound(h.(watch := watch)) && Sound(h.(closing := closing))
  {
  }

  lemma HearingIsSound(k: nat, h: Helper, w: World, line: DesktopLine)
    requires Sound(h)
    ensures Sound(A.Step(k, h, w, WatcherRead(line)).helper)
  {
    FlagsAreSound(h, Saw(line), h.proof.(watchedAt := |w.trace|), true);
  }

  lemma LossIsSound(k: nat, h: Helper, w: World)
    requires Sound(h)
    ensures Sound(A.Step(k, h, w, WatcherLost).helper)
  {
    FlagsAreSound(h, Lost, h.proof, true);
  }

  lemma BreakIsSound(k: nat, h: Helper, w: World)
    requires Sound(h)
    ensures Sound(A.Step(k, h, w, OutputBroken).helper)
  {
    FlagsAreSound(h, h.watch, h.proof, true);
  }

  lemma KillIsSound(k: nat, h: Helper, w: World)
    requires Sound(h)
    ensures Sound(A.Step(k, h, w, Killed).helper)
  {
    MoveIsSound(h, Gone);
  }

  lemma DeliveryIsSound(k: nat, h: Helper, w: World, ok: bool, output: Output)
    requires Sound(h)
    ensures Sound(A.Step(k, h, w, Delivered(ok, output)).helper)
  {
    if h.phase.Delivering? {
      DesertIsSound(h, output);
      AbortIsSound(h);
      MoveIsSound(h, Approving);
    }
  }

  lemma ReadyStepIsSound(k: nat, h: Helper, w: World, output: Output)
    requires Sound(h)
    ensures Sound(A.Step(k, h, w, ReadySent(output)).helper)
  {
    if h.phase.Announcing? {
      ReadySentIsSound(h, output);
    }
  }

  lemma RecordIsSound(k: nat, h: Helper, w: World, ok: bool)
    requires Sound(h)
    ensures Sound(A.Step(k, h, w, Recorded(ok)).helper)
  {
    if h.phase.Launched? {
      AbortIsSound(h);
      MoveIsSound(h, Confirming);
    }
  }

  lemma ReportStepIsSound(k: nat, h: Helper, w: World, pid: nat, output: Output)
    requires Sound(h)
    ensures Sound(A.Step(k, h, w, ExecutedSent(pid, output)).helper)
  {
    if h.phase.Reporting? {
      ReportIsSound(h, pid, output);
    }
  }

  lemma InterruptIsSound(k: nat, h: Helper, w: World)
    requires Sound(h)
    ensures Sound(A.Step(k, h, w, Interrupted).helper)
  {
    MailIsSound(h, false);
    if Suspended(h.phase) {
      AbortIsSound(h);
    }
  }

  lemma ErrorStepIsSound(k: nat, h: Helper, w: World, output: Output)
    requires Sound(h)
    ensures Sound(A.Step(k, h, w, ErrorSent(output)).helper)
  {
    if h.phase.Failing? {
      SendErrorIsSound(h, output);
    }
  }

  lemma ClearIsSound(k: nat, h: Helper, w: World)
    requires Sound(h)
    ensures Sound(A.Step(k, h, w, RowCleared).helper)
  {
    if h.phase.CleaningUp? {
      MoveIsSound(h, Gone);
      if !h.committed {
        MoveIsSound(h, Withdrawing);
      }
    }
  }

  /** What the desktop, the kernel and the phone do to a helper. */
  predicate Outside(e: A.Event) {
    e.Boot? || e.StartRead? || e.WatcherRead? || e.WatcherLost? || e.Interrupted? || e.OutputBroken? || e.Killed?
  }

  lemma OutsideIsSound(k: nat, h: Helper, w: World, e: A.Event)
    requires Sound(h) && Outside(e)
    ensures Sound(A.Step(k, h, w, e).helper)
  {
    match e {
      case Boot(_) =>
      case StartRead(line) => if h.phase.AwaitStart? { StartIsSound(h, w, line); }
      case WatcherRead(line) => HearingIsSound(k, h, w, line);
      case WatcherLost => LossIsSound(k, h, w);
      case Interrupted => InterruptIsSound(k, h, w);
      case OutputBroken => BreakIsSound(k, h, w);
      case Killed => KillIsSound(k, h, w);
    }
  }

  lemma ApprovalIsSound(k: nat, h: Helper, w: World, e: A.Event)
    requires Sound(h) && (e.Discovered? || e.Delivered? || e.Approved? || e.ReadySent? || e.CommitRead?)
    ensures Sound(A.Step(k, h, w, e).helper)
  {
    match e {
      case Discovered(_, _, _, _, _, _, _) => if h.phase.Discovering? { DiscoverIsSound(h, w, e); }
      case Delivered(ok, output) => DeliveryIsSound(k, h, w, ok, output);
      case Approved(answer, output) => if h.phase.Approving? { ApproveIsSound(k, h, w, answer, output); }
      case ReadySent(output) => ReadyStepIsSound(k, h, w, output);
      case CommitRead(_, _, _) => if h.phase.AwaitCommit? { CommitIsSound(k, h, w, e); }
    }
  }

  lemma ExecutionIsSound(k: nat, h: Helper, w: World, e: A.Event)
    requires Sound(h)
    requires e.Spawned? || e.Recorded? || e.ReceiptDelivered? || e.ExecutedSent? || e.ErrorSent? || e.RowCleared? || e.WithdrawalDelivered?
    ensures Sound(A.Step(k, h, w, e).helper)
  {
    match e {
      case Spawned(ok) => if h.phase.Accepted? { SpawnIsSound(k, h, w, ok); }
      case Recorded(ok) => RecordIsSound(k, h, w, ok);
      case ReceiptDelivered(ok) => MailIsSound(h, ok);
      case ExecutedSent(pid, output) => ReportStepIsSound(k, h, w, pid, output);
      case ErrorSent(output) => ErrorStepIsSound(k, h, w, output);
      case RowCleared => ClearIsSound(k, h, w);
      case WithdrawalDelivered => MailIsSound(h, true);
    }
  }

  lemma StepIsSound(k: nat, h: Helper, w: World, e: A.Event)
    requires Sound(h)
    ensures Sound(A.Step(k, h, w, e).helper)
  {
    if Outside(e) {
      OutsideIsSound(k, h, w, e);
    } else if e.Discovered? || e.Delivered? || e.Approved? || e.ReadySent? || e.CommitRead? {
      ApprovalIsSound(k, h, w, e);
    } else {
      ExecutionIsSound(k, h, w, e);
    }
  }
}
