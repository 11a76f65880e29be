/** What the authority owes to the phone, to the desktop and to its table, and when: the
    control flow of `handle` read off its waits, then what every run comes to. */
module AuthorityDuties {
  import opened Protocol
  import opened TextChecks
  import opened A = AuthoritySteps
  import opened R = AuthorityRuns
  import P = AuthorityProofs
  import T = AuthorityTheorems

  // ----- the control flow -----

  /** The event a phase is waiting for. */
  predicate Awaited(h: Helper, e: A.Event) {
    match h.phase
    case AwaitStart => e.StartRead?
    case Discovering => e.Discovered?
    case Delivering => e.Delivered?
    case Approving => e.Approved?
    case Announcing => e.ReadySent?
    case AwaitCommit => e.CommitRead? && !h.watch.Watching?
    case Accepted => e.Spawned?
    case Launched => e.Recorded?
    case Confirming => e.ReceiptDelivered?
    case Reporting(_) => e.ExecutedSent?
    case Failing => e.ErrorSent?
    case CleaningUp => e.RowCleared?
    case Withdrawing => e.WithdrawalDelivered?
    case _ => false
  }

  predicate InTime(h: Helper, w: World) {
    w.now < h.startedAt + 120000
  }

  /** The phone has signed exactly this helper's payload, under the certificate it was asked
      for. */
  predicate SignedByPhone(h: Helper, w: World, a: Answer) {
    && a.Answer? && h.payload == Some(a.payload) && a.certificateMatches
    && a.signature < |w.trace| && w.trace[a.signature] == Signed(a.payload)
  }

  predicate OwnCommit(h: Helper, line: DesktopLine) {
    line.Spoken? && line.event.CommitEvent? && line.exact && h.desktopId == Some(line.id)
  }

  /** What the awaited event must be for the exchange to go on. */
  predicate Favourable(h: Helper, w: World, e: A.Event)
    requires Awaited(h, e)
  {
    match h.phase
    case AwaitStart => e.line.Spoken? && e.line.exact && e.line.event.WishEvent? && ValidStart(e.line.event.wish)
    case Discovering =>
      && h.watch.Watching? && !e.ended && !h.closing && InTime(h, w)
      && e.found && e.directory.Some? && e.requestId !in w.rows && e.stored
    case Delivering => h.watch.Watching? && e.ok
    case Approving => h.watch.Watching? && InTime(h, w) && SignedByPhone(h, w, e.answer)
    case Announcing => !h.closing && e.output.written && e.output.drained
    case AwaitCommit =>
      && h.watch.Saw? && OwnCommit(h, h.watch.line) && InTime(h, w) && !e.ended && !h.closing && e.configured
      && h.requestId.Some? && h.requestId.value in w.rows && w.rows[h.requestId.value].status == Ready
    case Accepted => e.ok
    case Launched => e.ok
    case Reporting(delivered) => delivered && !h.closing && e.output.written && e.output.drained
    case _ => true
  }

  /** Where it goes on. */
  predicate Onward(h: Helper, e: A.Event, phase: Phase)
    requires Awaited(h, e)
  {
    match h.phase
    case AwaitStart => phase == Discovering
    case Discovering => phase == Delivering
    case Delivering => phase == Approving
    case Approving => phase == Announcing
    case Announcing => phase == AwaitCommit
    case AwaitCommit => phase == Accepted
    case Accepted => phase == Launched
    case Launched => phase == Confirming
    case Confirming => phase == Reporting(e.ok)
    case CleaningUp => phase == if h.requestId.Some? && !h.committed then Withdrawing else Gone
    case Withdrawing => phase == Gone
    case _ => phase == CleaningUp
  }

  /** Where a cancellation of the coroutine finds it waiting. */
  predicate Cancellable(phase: Phase) {
    phase.AwaitStart? || phase.Discovering? || phase.Delivering? || phase.Approving? || phase.Announcing? || phase.AwaitCommit?
  }

  predicate Proceeds(h: Helper, w: World, e: A.Event, phase: Phase) {
    if Awaited(h, e) then if Favourable(h, w, e) then Onward(h, e, phase) else phase == Failing
    else if e.Killed? then phase == Gone
    else if e.Interrupted? && Cancellable(h.phase) then phase == Failing
    else if e.Interrupted? && h.phase.Confirming? then phase == Reporting(false)
    else phase == h.phase
  }

  // ----- what a step leaves behind -----

  /** The step passes the wait in `phase`. */
  predicate Passes(h: Helper, w: World, e: A.Event, phase: Phase) {
    h.phase == phase && Awaited(h, e) && Favourable(h, w, e)
  }

  /** What the desktop said of itself. */
  predicate Introduced(h: Helper, w: World, e: A.Event, g: Helper) {
    && g.desktopId == (if h.phase.AwaitStart? && e.StartRead? && e.line.Spoken? then Some(e.line.id) else h.desktopId)
    && if Passes(h, w, e, AwaitStart)
       then g.startedAt == w.now && g.wish == e.line.event.wish && g.environment == Base(w.account) + g.wish.environment
       else g.startedAt == h.startedAt && g.wish == h.wish && g.environment == h.environment
  }

  /** The request that the phone is asked to sign. */
  predicate Asked(h: Helper, w: World, e: A.Event, g: Helper) {
    if h.phase.Discovering? && e.Discovered? && h.watch.Watching? && !e.ended && !h.closing && InTime(h, w) && e.found && e.directory.Some? then
      && g.requestId == Some(e.requestId) && g.directory == e.directory
      && g.payload.Some?
      && var p := g.payload.value;
         && p.machine == w.machine && p.phoneKey == w.phoneKey && p.authenticate && p.kdeRoute == w.kdeRoute
         && p.requestId == e.requestId && h.desktopId == Some(p.desktopId)
         && p.application == h.wish.application && p.command == h.wish.command
         && p.issued == e.issued && p.expires - p.issued == h.startedAt + 120000 - w.now
         && p.execution == Some(Execution(Argv(p.command), 0, 0, e.directory.value, h.environment))
    else g.requestId == h.requestId && g.directory == h.directory && g.payload == h.payload
  }

  predicate WatcherListens(h: Helper) {
    h.watch.Watching? && (h.phase.Discovering? || h.phase.Delivering? || h.phase.Approving? || h.phase.Announcing? || h.phase.AwaitCommit?)
  }

  predicate Overheard(h: Helper, e: A.Event, g: Helper) {
    if e.WatcherRead? && WatcherListens(h) then g.watch == Saw(e.line)
    else if e.WatcherLost? && WatcherListens(h) then g.watch == Lost
    else g.watch == h.watch
  }

  predicate Decided(h: Helper, w: World, e: A.Event, g: Helper)
    requires Phased(h) && Described(h)
  {
    && (g.committed <==> h.committed || Passes(h, w, e, AwaitCommit))
    && g.launch == (if Passes(h, w, e, Accepted)
                    then Some(Launch(h.requestId.value, Argv(h.wish.command), 0, 0, h.directory.value, h.environment)) else h.launch)
  }

  /** The table after a step: a row is recorded, made ready, consumed or closed exactly when
      the exchange passes that point. */
  predicate Tabled(h: Helper, w: World, e: A.Event, g: Helper, rows: Rows)
    requires Phased(h) && Described(h) && P.Backed(h, w.rows)
  {
    if Passes(h, w, e, Discovering)
    then g.payload.Some? && rows == w.rows[e.requestId := Row(h.desktopId.value, g.payload.value, Pending)]
    else if Passes(h, w, e, Approving) then rows == w.rows[h.requestId.value := w.rows[h.requestId.value].(status := Ready)]
    else if Passes(h, w, e, AwaitCommit) then rows == w.rows[h.requestId.value := w.rows[h.requestId.value].(status := Consumed)]
    else if Passes(h, w, e, CleaningUp) && h.requestId.Some? && !h.committed && P.Open(w.rows, h.requestId.value)
    then rows == w.rows[h.requestId.value := w.rows[h.requestId.value].(status := Canceled)]
    else rows == w.rows
  }

  /** What is mailed to the phone: a receipt when the launch is on record, a withdrawal at the
      end of a request that was not consumed. */
  predicate Posted(h: Helper, e: A.Event, g: Helper) {
    g.mail == h.mail
      + (if h.phase.Confirming? && (e.ReceiptDelivered? || e.Interrupted?) then [ReceiptMail] else [])
      + (if h.phase.Withdrawing? && e.WithdrawalDelivered? then [CancelMail] else [])
  }

  /** The record of what happened. */
  predicate Noted(k: nat, h: Helper, w: World, e: A.Event, trace: seq<Note>)
    requires Phased(h) && Described(h)
  {
    if Passes(h, w, e, Approving) then trace == w.trace + [Verified(k, e.answer.signature)]
    else if Passes(h, w, e, AwaitCommit) then trace == w.trace + [Took(k, h.requestId.value, w.now)]
    else if Passes(h, w, e, Accepted)
    then trace == w.trace + [Started(k, Launch(h.requestId.value, Argv(h.wish.command), 0, 0, h.directory.value, h.environment))]
    else if e.WatcherRead? && WatcherListens(h) then trace == w.trace + [Watched(k, e.line)]
    else trace == w.trace
  }

  predicate Tidy(h: Helper, w: World) {
    Phased(h) && Described(h) && P.Backed(h, w.rows)
  }

  /** What a step makes of the process itself. */
  predicate Steered(h: Helper, w: World, e: A.Event, g: Helper) {
    Proceeds(h, w, e, g.phase) && Introduced(h, w, e, g) && Asked(h, w, e, g) && Overheard(h, e, g) && Posted(h, e, g)
  }

  /** What it makes of the world. */
  predicate Booked(k: nat, h: Helper, w: World, e: A.Event, m: Move)
    requires Tidy(h, w)
  {
    && Decided(h, w, e, m.helper)
    && Tabled(h, w, e, m.helper, m.world.rows) && Noted(k, h, w, e, m.world.trace)
    && m.world == w.(rows := m.world.rows, trace := m.world.trace)
  }

  lemma StartSteers(k: nat, h: Helper, w: World, line: DesktopLine)
    requires Phased(h) && Described(h)
    ensures Steered(h, w, StartRead(line), A.Step(k, h, w, StartRead(line)).helper)
  {
    if Awaited(h, StartRead(line)) {
      if Favourable(h, w, StartRead(line)) {
      }
    }
  }

  lemma HearingSteers(k: nat, h: Helper, w: World, line: DesktopLine)
    requires Phased(h) && Described(h)
    ensures Steered(h, w, WatcherRead(line), A.Step(k, h, w, WatcherRead(line)).helper)
  {
    assert !Awaited(h, WatcherRead(line));
    var g := A.Step(k, h, w, WatcherRead(line)).helper;
    assert g == h.(watch := g.watch, proof := g.proof);
  }

  lemma LossSteers(k: nat, h: Helper, w: World)
    requires Phased(h) && Described(h)
    ensures Steered(h, w, WatcherLost, A.Step(k, h, w, WatcherLost).helper)
  {
    assert !Awaited(h, WatcherLost);
    var g := A.Step(k, h, w, WatcherLost).helper;
    assert g == h.(watch := g.watch);
  }

  lemma DeliverySteers(k: nat, h: Helper, w: World, ok: bool, output: Output)
    requires Phased(h) && Described(h)
    ensures Steered(h, w, Delivered(ok, output), A.Step(k, h, w, Delivered(ok, output)).helper)
  {
    if Awaited(h, Delivered(ok, output)) {
      if Favourable(h, w, Delivered(ok, output)) {
      }
    }
  }

  lemma ApprovalSteers(k: nat, h: Helper, w: World, answer: Answer, output: Output)
    requires Phased(h) && Described(h)
    ensures Steered(h, w, Approved(answer, output), A.Step(k, h, w, Approved(answer, output)).helper)
  {
    if Awaited(h, Approved(answer, output)) {
      if Favourable(h, w, Approved(answer, output)) {
      }
    }
  }

  lemma ReadySteers(k: nat, h: Helper, w: World, output: Output)
    requires Phased(h) && Described(h)
    ensures Steered(h, w, ReadySent(output), A.Step(k, h, w, ReadySent(output)).helper)
  {
    if Awaited(h, ReadySent(output)) {
      if Favourable(h, w, ReadySent(output)) {
      }
    }
  }

  lemma SpawnSteers(k: nat, h: Helper, w: World, ok: bool)
    requires Phased(h) && Described(h)
    ensures Steered(h, w, Spawned(ok), A.Step(k, h, w, Spawned(ok)).helper)
  {
    if Awaited(h, Spawned(ok)) {
      if Favourable(h, w, Spawned(ok)) {
      }
    }
  }

  lemma RecordSteers(k: nat, h: Helper, w: World, ok: bool)
    requires Phased(h) && Described(h)
    ensures Steered(h, w, Recorded(ok), A.Step(k, h, w, Recorded(ok)).helper)
  {
    if Awaited(h, Recorded(ok)) {
      if Favourable(h, w, Recorded(ok)) {
      }
    }
  }

  lemma ReceiptSteers(k: nat, h: Helper, w: World, ok: bool)
    requires Phased(h) && Described(h)
    ensures Steered(h, w, ReceiptDelivered(ok), A.Step(k, h, w, ReceiptDelivered(ok)).helper)
  {
    if Awaited(h, ReceiptDelivered(ok)) {
      if Favourable(h, w, ReceiptDelivered(ok)) {
      }
    }
  }

  lemma ReportSteers(k: nat, h: Helper, w: World, pid: nat, output: Output)
    requires Phased(h) && Described(h)
    ensures Steered(h, w, ExecutedSent(pid, output), A.Step(k, h, w, ExecutedSent(pid, output)).helper)
  {
    if Awaited(h, ExecutedSent(pid, output)) {
      if Favourable(h, w, ExecutedSent(pid, output)) {
      }
    }
  }

  lemma ErrorSteers(k: nat, h: Helper, w: World, output: Output)
    requires Phased(h) && Described(h)
    ensures Steered(h, w, ErrorSent(output), A.Step(k, h, w, ErrorSent(output)).helper)
  {
    if Awaited(h, ErrorSent(output)) {
      if Favourable(h, w, ErrorSent(output)) {
      }
    }
  }

  lemma ClearingSteers(k: nat, h: Helper, w: World)
    requires Phased(h) && Described(h)
    ensures Steered(h, w, RowCleared, A.Step(k, h, w, RowCleared).helper)
  {
    if Awaited(h, RowCleared) {
      if Favourable(h, w, RowCleared) {
      }
    }
  }

  lemma WithdrawalSteers(k: nat, h: Helper, w: World)
    requires Phased(h) && Described(h)
    ensures Steered(h, w, WithdrawalDelivered, A.Step(k, h, w, WithdrawalDelivered).helper)
  {
    if Awaited(h, WithdrawalDelivered) {
      if Favourable(h, w, WithdrawalDelivered) {
      }
    }
  }

  lemma InterruptionSteers(k: nat, h: Helper, w: World)
    requires Phased(h) && Described(h)
    ensures Steered(h, w, Interrupted, A.Step(k, h, w, Interrupted).helper)
  {
    assert !Awaited(h, Interrupted);
    var g := A.Step(k, h, w, Interrupted).helper;
    assert g == h.(phase := g.phase, mail := g.mail);
  }

  lemma DiscoverySteers(k: nat, h: Helper, w: World, e: A.Event)
    requires Phased(h) && Described(h) && e.Discovered?
    ensures Steered(h, w, e, A.Step(k, h, w, e).helper)
  {
    if Awaited(h, e) {
      if Favourable(h, w, e) {
      }
    }
  }

  lemma CommitSteers(k: nat, h: Helper, w: World, e: A.Event)
    requires Phased(h) && Described(h) && e.CommitRead?
    ensures Steered(h, w, e, A.Step(k, h, w, e).helper)
  {
    CommitFrame(k, h, w, e);
    if Awaited(h, e) {
      CommitProceeds(k, h, w, e);
    }
  }

  lemma CommitFrame(k: nat, h: Helper, w: World, e: A.Event)
    requires e.CommitRead?
    ensures var g := A.Step(k, h, w, e).helper;
            g == h.(phase := g.phase, committed := g.committed, proof := g.proof,
                    out := g.out, closing := g.closing, terminalSent := g.terminalSent)
    ensures !h.phase.AwaitCommit? || h.watch.Watching? ==> A.Step(k, h, w, e).helper == h
  {
  }

  lemma CommitProceeds(k: nat, h: Helper, w: World, e: A.Event)
    requires Phased(h) && Described(h) && e.CommitRead? && Awaited(h, e)
    ensures A.Step(k, h, w, e).helper.phase == if Favourable(h, w, e) then Accepted else Failing
  {
    if Favourable(h, w, e) {
      assert A.Step(k, h, w, e) == Consume(k, h, w, h.requestId.value);
    }
  }

  lemma OutsideSteers(k: nat, h: Helper, w: World, e: A.Event)
    requires Phased(h) && Described(h) && (e.Boot? || e.OutputBroken? || e.Killed?)
    ensures Steered(h, w, e, A.Step(k, h, w, e).helper)
  {
    assert !Awaited(h, e);
  }

  /** Events up to the commit. */
  predicate Approaches(e: A.Event) {
    e.StartRead? || e.WatcherRead? || e.WatcherLost? || e.Discovered? || e.Delivered? || e.Approved? || e.ReadySent? || e.CommitRead?
  }

  lemma ApproachSteers(k: nat, h: Helper, w: World, e: A.Event)
    requires Phased(h) && Described(h) && Approaches(e)
    ensures Steered(h, w, e, A.Step(k, h, w, e).helper)
  {
    match e {
      case Discovered(_, _, _, _, _, _, _) => DiscoverySteers(k, h, w, e);
      case CommitRead(_, _, _) => CommitSteers(k, h, w, e);
      case StartRead(line) => StartSteers(k, h, w, line);
      case WatcherRead(line) => HearingSteers(k, h, w, line);
      case WatcherLost => LossSteers(k, h, w);
      case Delivered(ok, output) => DeliverySteers(k, h, w, ok, output);
      case Approved(answer, output) => ApprovalSteers(k, h, w, answer, output);
      case ReadySent(output) => ReadySteers(k, h, w, output);
    }
  }

  lemma ExecutionSteers(k: nat, h: Helper, w: World, e: A.Event)
    requires Phased(h) && Described(h) && !Approaches(e)
    ensures Steered(h, w, e, A.Step(k, h, w, e).helper)
  {
    match e {
      case Spawned(ok) => SpawnSteers(k, h, w, ok);
      case Recorded(ok) => RecordSteers(k, h, w, ok);
      case ReceiptDelivered(ok) => ReceiptSteers(k, h, w, ok);
      case ExecutedSent(pid, output) => ReportSteers(k, h, w, pid, output);
      case ErrorSent(output) => ErrorSteers(k, h, w, output);
      case RowCleared => ClearingSteers(k, h, w);
      case WithdrawalDelivered => WithdrawalSteers(k, h, w);
      case Interrupted => InterruptionSteers(k, h, w);
      case Boot(_) => OutsideSteers(k, h, w, e);
      case OutputBroken => OutsideSteers(k, h, w, e);
      case Killed => OutsideSteers(k, h, w, e);
    }
  }

  /** `handle` goes on exactly as far as each wait allows and ends in its `except` clause
      otherwise; what it knows, asks and mails changes exactly where it passes. */
  lemma StepSteers(k: nat, h: Helper, w: World, e: A.Event)
    requires Phased(h) && Described(h)
    ensures Steered(h, w, e, A.Step(k, h, w, e).helper)
  {
    if Approaches(e) {
      ApproachSteers(k, h, w, e);
    } else {
      ExecutionSteers(k, h, w, e);
    }
  }

  lemma HearingBooks(k: nat, h: Helper, w: World, line: DesktopLine)
    requires Tidy(h, w)
    ensures Booked(k, h, w, WatcherRead(line), A.Step(k, h, w, WatcherRead(line)))
  {
    assert !Awaited(h, WatcherRead(line));
  }

  lemma ApprovalBooks(k: nat, h: Helper, w: World, answer: Answer, output: Output)
    requires Tidy(h, w)
    ensures Booked(k, h, w, Approved(answer, output), A.Step(k, h, w, Approved(answer, output)))
  {
    var e := Approved(answer, output);
    if Passes(h, w, e, Approving) {
      assert A.Step(k, h, w, e) == MarkReady(k, h, w, answer.signature);
    } else {
      assert A.Step(k, h, w, e).world == w;
    }
  }

  lemma SpawnBooks(k: nat, h: Helper, w: World, ok: bool)
    requires Tidy(h, w)
    ensures Booked(k, h, w, Spawned(ok), A.Step(k, h, w, Spawned(ok)))
  {
    if Awaited(h, Spawned(ok)) {
      if Favourable(h, w, Spawned(ok)) {
      }
    }
  }

  lemma ClearingBooks(k: nat, h: Helper, w: World)
    requires Tidy(h, w)
    ensures Booked(k, h, w, RowCleared, A.Step(k, h, w, RowCleared))
  {
    ClearingIsDecided(k, h, w);
    ClearingIsTabled(k, h, w);
  }

  lemma ClearingIsDecided(k: nat, h: Helper, w: World)
    requires Tidy(h, w)
    ensures Decided(h, w, RowCleared, A.Step(k, h, w, RowCleared).helper)
    ensures Noted(k, h, w, RowCleared, A.Step(k, h, w, RowCleared).world.trace)
  {
  }

  lemma ClearingIsTabled(k: nat, h: Helper, w: World)
    requires Tidy(h, w)
    ensures var m := A.Step(k, h, w, RowCleared);
            Tabled(h, w, RowCleared, m.helper, m.world.rows) && m.world == w.(rows := m.world.rows)
  {
    if h.phase.CleaningUp? && h.requestId.Some? && !h.committed {
      CancelsOpenRow(w.rows, h.requestId.value);
    }
  }

  lemma CancelsOpenRow(rows: Rows, id: nat)
    ensures CancelRow(rows, id) == if P.Open(rows, id) then rows[id := rows[id].(status := Canceled)] else rows
  {
  }

  lemma DiscoveryBooks(k: nat, h: Helper, w: World, e: A.Event)
    requires Tidy(h, w) && e.Discovered?
    ensures Booked(k, h, w, e, A.Step(k, h, w, e))
  {
    if Awaited(h, e) {
      if Favourable(h, w, e) {
      }
    }
  }

  lemma CommitBooks(k: nat, h: Helper, w: World, e: A.Event)
    requires Tidy(h, w) && e.CommitRead?
    ensures Booked(k, h, w, e, A.Step(k, h, w, e))
  {
    if Awaited(h, e) {
      if Favourable(h, w, e) {
      }
    }
  }

  lemma QuietBooks(k: nat, h: Helper, w: World, e: A.Event)
    requires Tidy(h, w) && !P.ChangesWorld(e)
    ensures Booked(k, h, w, e, A.Step(k, h, w, e))
  {
    assert !Passes(h, w, e, Discovering) && !Passes(h, w, e, Approving) && !Passes(h, w, e, AwaitCommit);
    assert !Passes(h, w, e, Accepted) && !Passes(h, w, e, CleaningUp);
    P.QuietStep(k, h, w, e);
  }

  /** A row is recorded, made ready, consumed and closed, and the launch made, exactly where
      the exchange passes that point. */
  lemma StepBooks(k: nat, h: Helper, w: World, e: A.Event)
    requires Tidy(h, w)
    ensures Booked(k, h, w, e, A.Step(k, h, w, e))
  {
    match e {
      case Discovered(_, _, _, _, _, _, _) => DiscoveryBooks(k, h, w, e);
      case CommitRead(_, _, _) => CommitBooks(k, h, w, e);
      case WatcherRead(line) => HearingBooks(k, h, w, line);
      case Approved(answer, output) => ApprovalBooks(k, h, w, answer, output);
      case Spawned(ok) => SpawnBooks(k, h, w, ok);
      case RowCleared => ClearingBooks(k, h, w);
      case _ => QuietBooks(k, h, w, e);
    }
  }

  // ----- what the desktop is told -----

  /** The replies that the authority has; a process number is a whole number. */
  predicate Sendable(event: ReplyEvent) {
    !event.UnknownReply? && (event.ExecutedReply? ==> event.pid.Some? && event.pid.value == event.pid.value.Floor as real)
  }

  /** What a helper says when it takes an event. */
  function Says(h: Helper, w: World, e: A.Event): (reply: Option<ReplyEvent>)
    ensures reply.Some? ==> Sendable(reply.value)
  {
    match e
    case Discovered(_, ended, _, _, _, _, _) =>
      if h.phase.Discovering? && (!h.watch.Watching? || ended || h.closing || w.now >= Deadline(h)) then Farewell(h) else None
    case Delivered(_, _) => if h.phase.Delivering? && !h.watch.Watching? then Farewell(h) else None
    case Approved(_, _) => if h.phase.Approving? && !h.watch.Watching? then Farewell(h) else None
    case ReadySent(_) => if h.phase.Announcing? then Some(ReadyReply) else None
    case CommitRead(_, _, _) => if h.phase.AwaitCommit? && !h.watch.Watching? then Farewell(h) else None
    case ExecutedSent(pid, _) => if h.phase.Reporting? then Some(ExecutedReply(Some(pid as real))) else None
    case ErrorSent(_) =>
      if h.phase.Failing? && h.desktopId.Some? && !h.terminalSent then Some(ErrorReply(true, h.committed)) else None
    case _ => None
  }

  function Farewell(h: Helper): (reply: Option<ReplyEvent>)
    ensures reply.Some? ==> Sendable(reply.value) && h.desktopId.Some?
  {
    if Withdrew(h) then Some(CanceledReply) else None
  }

  predicate Speaks(e: A.Event) {
    e.Discovered? || e.Delivered? || e.Approved? || e.ReadySent? || e.CommitRead? || e.ExecutedSent? || e.ErrorSent?
  }

  /** The event with what the pipe has really done. */
  function Through(e: A.Event, output: Output): A.Event {
    if Speaks(e) then e.(output := output) else e
  }

  /** What the pipe can see of a step from `h` to `g`. */
  predicate Follows(h: Helper, g: Helper, reply: Option<ReplyEvent>, output: Output) {
    && (g.desktopId == h.desktopId || h.phase.AwaitStart?)
    && (g.phase.Booting? || g.phase.AwaitStart? ==> g.phase == h.phase)
    && g.terminalSent == (if reply.Some? && (reply.value.CanceledReply? || reply.value.ExecutedReply?) then Drained(h, output) else h.terminalSent)
    && match reply
       case Some(event) => h.desktopId.Some? && g.out == Send(h, event, output).out && g.closing == Send(h, event, output).closing
       case None => g.out == h.out && g.closing == h.closing
  }

  predicate Leads(k: nat, h: Helper, w: World, e: A.Event, output: Output) {
    Follows(h, A.Step(k, h, w, Through(e, output)).helper, Says(h, w, e), output)
  }

  lemma DesertFollows(h: Helper, output: Output)
    ensures Follows(h, Desert(h, output), Farewell(h), output)
  {
  }

  lemma DiscoveredLeads(k: nat, h: Helper, w: World, e: A.Event, output: Output)
    requires e.Discovered?
    ensures Leads(k, h, w, e, output)
  {
    DesertFollows(h, output);
  }

  lemma DeliveredLeads(k: nat, h: Helper, w: World, e: A.Event, output: Output)
    requires e.Delivered?
    ensures Leads(k, h, w, e, output)
  {
    DesertFollows(h, output);
  }

  lemma ApprovedLeads(k: nat, h: Helper, w: World, e: A.Event, output: Output)
    requires e.Approved? && Phased(h)
    ensures Leads(k, h, w, e, output)
  {
    DesertFollows(h, output);
  }

  lemma CommitReadLeads(k: nat, h: Helper, w: World, e: A.Event, output: Output)
    requires e.CommitRead? && Phased(h)
    ensures Leads(k, h, w, e, output)
  {
    DesertFollows(h, output);
  }

  lemma ReadyLeads(k: nat, h: Helper, w: World, e: A.Event, output: Output)
    requires e.ReadySent? && Phased(h) && Described(h)
    ensures Leads(k, h, w, e, output)
  {
  }

  lemma ExecutedLeads(k: nat, h: Helper, w: World, e: A.Event, output: Output)
    requires e.ExecutedSent? && Phased(h) && Described(h)
    ensures Leads(k, h, w, e, output)
  {
  }

  lemma ErrorLeads(k: nat, h: Helper, w: World, e: A.Event, output: Output)
    requires e.ErrorSent?
    ensures Leads(k, h, w, e, output)
  {
  }

  lemma HearingLeads(k: nat, h: Helper, w: World, e: A.Event, output: Output)
    requires e.Boot? || e.StartRead? || e.WatcherRead? || e.WatcherLost? || e.Killed?
    ensures Leads(k, h, w, e, output)
  {
    if e.StartRead? {
      StartLeads(k, h, w, e.line, output);
    }
  }

  lemma StartLeads(k: nat, h: Helper, w: World, line: DesktopLine, output: Output)
    ensures Leads(k, h, w, A.StartRead(line), output)
  {
  }

  lemma ExecutionLeads(k: nat, h: Helper, w: World, e: A.Event, output: Output)
    requires e.Spawned? || e.Recorded? || e.ReceiptDelivered?
    ensures Leads(k, h, w, e, output)
  {
  }

  lemma SilenceLeads(k: nat, h: Helper, w: World, e: A.Event, output: Output)
    requires !Speaks(e) && !e.OutputBroken?
    ensures Leads(k, h, w, e, output)
  {
    if e.Boot? || e.StartRead? || e.WatcherRead? || e.WatcherLost? || e.Killed? {
      HearingLeads(k, h, w, e, output);
    } else if e.Spawned? || e.Recorded? || e.ReceiptDelivered? {
      ExecutionLeads(k, h, w, e, output);
    }
  }

  lemma StepLeads(k: nat, h: Helper, w: World, e: A.Event, output: Output)
    requires Sound(h) && !e.OutputBroken?
    ensures Leads(k, h, w, e, output)
  {
    if !Speaks(e) {
      SilenceLeads(k, h, w, e, output);
    } else if e.Discovered? {
      DiscoveredLeads(k, h, w, e, output);
    } else if e.Delivered? {
      DeliveredLeads(k, h, w, e, output);
    } else if e.Approved? {
      ApprovedLeads(k, h, w, e, output);
    } else if e.CommitRead? {
      CommitReadLeads(k, h, w, e, output);
    } else if e.ReadySent? {
      ReadyLeads(k, h, w, e, output);
    } else if e.ExecutedSent? {
      ExecutedLeads(k, h, w, e, output);
    } else {
      ErrorLeads(k, h, w, e, output);
    }
  }

  lemma ReplyHasName(k: nat, h: Helper, w: World, e: A.Event)
    requires Sound(h) && !e.OutputBroken? && Says(h, w, e).Some?
    ensures h.desktopId.Some? && !h.phase.Booting? && !h.phase.AwaitStart?
  {
    StepLeads(k, h, w, e, Output(false, false, false));
  }

  // ----- what every run comes to -----

  /** The three ways one event of the system can move a helper. */
  predicate Moves(s: System, e: SystemEvent, k: nat, g: Helper)
    requires k < |s.helpers|
  {
    var h := s.helpers[k];
    || g == h
    || (h.phase.Booting? && (g == h.(phase := AwaitStart) || g == h.(phase := Gone)))
    || (e.HelperEvent? && e.k == k && !e.event.Boot? && g == A.Step(k, h, s.world, e.event).helper)
  }

  lemma StepMoves(s: System, e: SystemEvent, k: nat)
    requires k < |s.helpers|
    ensures k < |R.Step(s, e).helpers| && Moves(s, e, k, R.Step(s, e).helpers[k])
  {
  }

  /** The only new helpers are newborn. */
  lemma StepForks(s: System, e: SystemEvent, k: nat)
    requires |s.helpers| <= k < |R.Step(s, e).helpers|
    ensures R.Step(s, e).helpers[k] == NEWBORN
  {
  }

  /** Nobody kills the process `k`. */
  predicate Spared(events: seq<SystemEvent>, k: nat) {
    forall i :: 0 <= i < |events| ==> events[i] != HelperEvent(k, A.Killed)
  }

  /** A process at its end has withdrawn what it asked for and was not given, and one that is
      about to report has mailed its receipt. */
  predicate Discharged(h: Helper) {
    && (h.phase.Gone? && h.requestId.Some? && !h.committed ==> CancelMail in h.mail)
    && (h.phase.Reporting? ==> ReceiptMail in h.mail)
    && (forall i :: 0 <= i < |h.out| && h.out[i].ExecutedReply? ==> ReceiptMail in h.mail)
  }

  function OutputOf(e: A.Event): Output {
    if Speaks(e) then e.output else Output(false, false, false)
  }

  lemma StepFollows(k: nat, h: Helper, w: World, e: A.Event)
    requires Sound(h) && !e.OutputBroken?
    ensures Follows(h, A.Step(k, h, w, e).helper, Says(h, w, e), OutputOf(e))
  {
    StepLeads(k, h, w, e, OutputOf(e));
  }

  lemma BreakingChangesNothingElse(k: nat, h: Helper, w: World)
    ensures A.Step(k, h, w, OutputBroken) == Move(h.(closing := true), w)
  {
  }

  lemma ConsumptionIsTheCommit(k: nat, h: Helper, w: World, e: A.Event)
    requires Phased(h)
    ensures h.committed ==> A.Step(k, h, w, e).helper.committed
  {
    if P.ChangesWorld(e) {
    } else {
      P.QuietStep(k, h, w, e);
    }
  }

  /** What a sound step does to the three duties. */
  lemma MailFollows(h: Helper, w: World, e: A.Event, g: Helper)
    requires Phased(h) && Discharged(h) && Steered(h, w, e, g) && !e.Killed? && (h.committed ==> g.committed)
    ensures g.phase.Gone? && g.requestId.Some? && !g.committed ==> CancelMail in g.mail
    ensures g.phase.Reporting? ==> ReceiptMail in g.mail
    ensures forall m :: m in h.mail ==> m in g.mail
  {
  }

  lemma RepliesFollow(h: Helper, w: World, e: A.Event, g: Helper, output: Output)
    requires Discharged(h) && Follows(h, g, Says(h, w, e), output) && (forall m :: m in h.mail ==> m in g.mail)
    ensures forall i :: 0 <= i < |g.out| && g.out[i].ExecutedReply? ==> ReceiptMail in g.mail
  {
  }

  lemma StepDischarges(k: nat, h: Helper, w: World, e: A.Event)
    requires Sound(h) && Discharged(h) && !e.Killed?
    ensures Discharged(A.Step(k, h, w, e).helper)
  {
    if e.OutputBroken? {
      BreakingChangesNothingElse(k, h, w);
    } else {
      var g := A.Step(k, h, w, e).helper;
      StepSteers(k, h, w, e);
      ConsumptionIsTheCommit(k, h, w, e);
      MailFollows(h, w, e, g);
      StepFollows(k, h, w, e);
      RepliesFollow(h, w, e, g, OutputOf(e));
    }
  }

  lemma SystemDischarges(s: System, e: SystemEvent, k: nat)
    requires T.Inv(s) && (k < |s.helpers| ==> Discharged(s.helpers[k])) && e != HelperEvent(k, A.Killed)
    ensures k < |R.Step(s, e).helpers| ==> Discharged(R.Step(s, e).helpers[k])
  {
    if k < |s.helpers| {
      assert T.Good(k, s.helpers[k], s.world);
      StepMoves(s, e, k);
      if e.HelperEvent? && e.k == k && !e.event.Boot? {
        StepDischarges(k, s.helpers[k], s.world, e.event);
      }
    } else if k < |R.Step(s, e).helpers| {
      StepForks(s, e, k);
    }
  }

  lemma {:induction false} RunDischarges(s: System, events: seq<SystemEvent>, k: nat)
    requires T.Inv(s) && (k < |s.helpers| ==> Discharged(s.helpers[k])) && Spared(events, k)
    ensures T.Inv(R.Run(s, events))
    ensures k < |R.Run(s, events).helpers| ==> Discharged(R.Run(s, events).helpers[k])
    decreases |events|
  {
    if events != [] {
      SystemDischarges(s, events[0], k);
      T.StepKeepsInv(s, events[0]);
      RunDischarges(R.Step(s, events[0]), events[1..], k);
    }
  }

  /** Over every run: a process that has come to its end, was not killed, and whose request
      was not consumed has told the phone so; one that told the desktop `executed` has sent
      the receipt first. */
  lemma EveryRequestIsSettled(machine: nat, phoneKey: nat, kdeRoute: bool, account: Text, events: seq<SystemEvent>, k: nat)
    requires Spared(events, k) && k < |R.Run(R.Initial(machine, phoneKey, kdeRoute, account), events).helpers|
    ensures var s := R.Run(R.Initial(machine, phoneKey, kdeRoute, account), events);
            var h := s.helpers[k];
            && (h.phase.Gone? && h.requestId.Some? && !T.HasConsumed(s, k) ==> CancelMail in h.mail)
            && (forall i :: 0 <= i < |h.out| && h.out[i].ExecutedReply? ==> ReceiptMail in h.mail)
  {
    T.InitialInv(machine, phoneKey, kdeRoute, account);
    RunDischarges(R.Initial(machine, phoneKey, kdeRoute, account), events, k);
    T.CommittedIsConsumed(R.Run(R.Initial(machine, phoneKey, kdeRoute, account), events), k);
  }

  /** A launch on record gets its receipt. */
  predicate Receipted(h: Helper) {
    h.phase.Confirming? || ReceiptMail in h.mail
  }

  lemma StepKeepsReceipt(k: nat, h: Helper, w: World, e: A.Event)
    requires Phased(h) && Described(h) && Receipted(h) && !e.Killed?
    ensures Receipted(A.Step(k, h, w, e).helper)
  {
    StepSteers(k, h, w, e);
  }

  lemma {:induction false} RecordedLaunchIsReceipted(s: System, events: seq<SystemEvent>, k: nat)
    requires T.Inv(s) && k < |s.helpers| && Receipted(s.helpers[k]) && Spared(events, k)
    ensures k < |R.Run(s, events).helpers| && Receipted(R.Run(s, events).helpers[k])
    decreases |events|
  {
    if events != [] {
      assert T.Good(k, s.helpers[k], s.world);
      StepMoves(s, events[0], k);
      if events[0].HelperEvent? && events[0].k == k && !events[0].event.Boot? {
        StepKeepsReceipt(k, s.helpers[k], s.world, events[0].event);
      }
      T.StepKeepsInv(s, events[0]);
      RecordedLaunchIsReceipted(R.Step(s, events[0]), events[1..], k);
    }
  }

  // ----- the desktop gets exactly one answer -----

  predicate Final(reply: ReplyEvent) {
    reply.CanceledReply? || reply.ExecutedReply? || reply.ErrorReply?
  }

  /** At most `ready`, then one final reply. */
  predicate Answered(out: seq<ReplyEvent>) {
    && 1 <= |out| <= 2 && Final(out[|out| - 1]) && (|out| == 2 ==> out[0] == ReadyReply)
  }

  /** Where the conversation stands while every line reaches the desktop. */
  predicate Conversing(h: Helper) {
    && !h.closing
    && match h.phase
       case Failing => if h.terminalSent then Answered(h.out) else h.out == [] || h.out == [ReadyReply]
       case CleaningUp => h.desktopId.Some? ==> Answered(h.out)
       case Withdrawing => h.desktopId.Some? ==> Answered(h.out)
       case Gone => h.desktopId.Some? ==> Answered(h.out)
       case Booting => h.out == [] && !h.terminalSent && h.desktopId.None?
       case AwaitCommit => h.out == [ReadyReply] && !h.terminalSent
       case _ => h.out == (if Late(h.phase) then [ReadyReply] else []) && !h.terminalSent
  }

  /** The process is not killed and all it writes is delivered. */
  predicate Smooth(e: A.Event) {
    !e.Killed? && !e.OutputBroken? && (Speaks(e) ==> e.output.written && e.output.drained)
  }

  lemma SendDelivers(h: Helper, reply: ReplyEvent, output: Output)
    requires !h.closing && output.written && output.drained
    ensures Send(h, reply, output).out == h.out + [reply] && !Send(h, reply, output).closing && Drained(h, output)
  {
  }

  lemma ConversationGoesOn(h: Helper, w: World, e: A.Event, g: Helper)
    requires Sound(h) && Conversing(h) && Smooth(e)
    requires Proceeds(h, w, e, g.phase) && Introduced(h, w, e, g) && Overheard(h, e, g)
    requires Follows(h, g, Says(h, w, e), OutputOf(e))
    ensures Conversing(g)
  {
    if Says(h, w, e).Some? {
      SendDelivers(h, Says(h, w, e).value, OutputOf(e));
      SpokenConversation(h, w, e, g);
    } else {
      SilentConversation(h, w, e, g);
    }
  }

  lemma SpokenConversation(h: Helper, w: World, e: A.Event, g: Helper)
    requires Sound(h) && Conversing(h) && Smooth(e)
    requires Proceeds(h, w, e, g.phase) && Introduced(h, w, e, g) && Overheard(h, e, g)
    requires Follows(h, g, Says(h, w, e), OutputOf(e))
    requires Says(h, w, e).Some? && g.out == h.out + [Says(h, w, e).value] && !g.closing && Drained(h, OutputOf(e))
    ensures Conversing(g)
  {
  }

  lemma SilentConversation(h: Helper, w: World, e: A.Event, g: Helper)
    requires Sound(h) && Conversing(h) && Smooth(e)
    requires Proceeds(h, w, e, g.phase) && Introduced(h, w, e, g)
    requires Follows(h, g, Says(h, w, e), OutputOf(e))
    requires Says(h, w, e).None?
    ensures Conversing(g)
  {
    if Awaited(h, e) {
      QuietTurn(h, w, e, g);
    }
  }

  lemma QuietTurn(h: Helper, w: World, e: A.Event, g: Helper)
    requires Sound(h) && Conversing(h) && Awaited(h, e)
    requires Proceeds(h, w, e, g.phase) && Introduced(h, w, e, g)
    requires Follows(h, g, Says(h, w, e), OutputOf(e))
    requires Says(h, w, e).None?
    ensures Conversing(g)
  {
    if Favourable(h, w, e) {
      assert Onward(h, e, g.phase);
    } else {
      assert g.phase == Failing;
    }
  }

  /** Nothing happens to the process `k` but what is smooth. */
  predicate Untroubled(events: seq<SystemEvent>, k: nat) {
    forall i :: 0 <= i < |events| && events[i].HelperEvent? && events[i].k == k ==> Smooth(events[i].event)
  }

  /** A launch that is on record is reported, a desktop that withdrew is told so. */
  predicate Reports(h: Helper) {
    h.phase.Confirming? || h.phase.Reporting? || (|h.out| > 0 && h.out[|h.out| - 1].ExecutedReply? && (h.terminalSent || Closed(h.phase)))
  }

  predicate Concedes(h: Helper) {
    || (Withdrew(h) && (h.phase.Discovering? || Busy(h.phase)))
    || (|h.out| > 0 && h.out[|h.out| - 1] == CanceledReply && (h.terminalSent || Closed(h.phase)) && Ended(h.phase))
  }

  lemma ReportGoesOn(h: Helper, w: World, e: A.Event, g: Helper)
    requires Sound(h) && Conversing(h) && Reports(h) && Smooth(e)
    requires Proceeds(h, w, e, g.phase) && Introduced(h, w, e, g) && Overheard(h, e, g)
    requires Follows(h, g, Says(h, w, e), OutputOf(e))
    ensures Reports(g)
  {
    if Says(h, w, e).Some? {
      SendDelivers(h, Says(h, w, e).value, OutputOf(e));
      SpokenReport(h, w, e, g);
    } else {
      SilentReport(h, w, e, g);
    }
  }

  lemma SpokenReport(h: Helper, w: World, e: A.Event, g: Helper)
    requires Sound(h) && Conversing(h) && Reports(h) && Smooth(e)
    requires Proceeds(h, w, e, g.phase) && Introduced(h, w, e, g) && Overheard(h, e, g)
    requires Follows(h, g, Says(h, w, e), OutputOf(e))
    requires Says(h, w, e).Some? && g.out == h.out + [Says(h, w, e).value] && !g.closing && Drained(h, OutputOf(e))
    ensures Reports(g)
  {
  }

  lemma SilentReport(h: Helper, w: World, e: A.Event, g: Helper)
    requires Sound(h) && Conversing(h) && Reports(h) && Smooth(e)
    requires Proceeds(h, w, e, g.phase) && Introduced(h, w, e, g) && Overheard(h, e, g)
    requires Follows(h, g, Says(h, w, e), OutputOf(e))
    requires Says(h, w, e).None?
    ensures Reports(g)
  {
    if Awaited(h, e) {
      if Favourable(h, w, e) {
        assert Onward(h, e, g.phase);
      }
    }
  }

  lemma ConcessionGoesOn(h: Helper, w: World, e: A.Event, g: Helper)
    requires Sound(h) && Conversing(h) && Concedes(h) && Smooth(e) && !e.Interrupted?
    requires Proceeds(h, w, e, g.phase) && Introduced(h, w, e, g) && Overheard(h, e, g)
    requires Follows(h, g, Says(h, w, e), OutputOf(e))
    ensures Concedes(g)
  {
    if Says(h, w, e).Some? {
      SendDelivers(h, Says(h, w, e).value, OutputOf(e));
      SpokenConcession(h, w, e, g);
    } else {
      SilentConcession(h, w, e, g);
    }
  }

  lemma SpokenConcession(h: Helper, w: World, e: A.Event, g: Helper)
    requires Sound(h) && Conversing(h) && Concedes(h) && Smooth(e) && !e.Interrupted?
    requires Proceeds(h, w, e, g.phase) && Introduced(h, w, e, g) && Overheard(h, e, g)
    requires Follows(h, g, Says(h, w, e), OutputOf(e))
    requires Says(h, w, e).Some? && g.out == h.out + [Says(h, w, e).value] && !g.closing && Drained(h, OutputOf(e))
    ensures Concedes(g)
  {
  }

  lemma SilentConcession(h: Helper, w: World, e: A.Event, g: Helper)
    requires Sound(h) && Conversing(h) && Concedes(h) && Smooth(e) && !e.Interrupted?
    requires Proceeds(h, w, e, g.phase) && Introduced(h, w, e, g) && Overheard(h, e, g)
    requires Follows(h, g, Says(h, w, e), OutputOf(e))
    requires Says(h, w, e).None?
    ensures Concedes(g)
  {
    if Awaited(h, e) {
      if Favourable(h, w, e) {
        assert Onward(h, e, g.phase);
      }
    }
  }

  /** What `k` has said, and what it still has to say. */
  predicate Talks(h: Helper, recorded: bool, withdrawn: bool) {
    Conversing(h) && (recorded ==> Reports(h)) && (withdrawn ==> Concedes(h))
  }

  lemma StepTalks(k: nat, h: Helper, w: World, e: A.Event, recorded: bool, withdrawn: bool)
    requires Sound(h) && Talks(h, recorded, withdrawn) && Smooth(e) && (withdrawn ==> !e.Interrupted?)
    ensures Talks(A.Step(k, h, w, e).helper, recorded, withdrawn)
  {
    var g := A.Step(k, h, w, e).helper;
    StepSteers(k, h, w, e);
    StepFollows(k, h, w, e);
    ConversationGoesOn(h, w, e, g);
    if recorded {
      ReportGoesOn(h, w, e, g);
    }
    if withdrawn {
      ConcessionGoesOn(h, w, e, g);
    }
  }

  predicate Uninterrupted(events: seq<SystemEvent>, k: nat) {
    forall i :: 0 <= i < |events| ==> events[i] != HelperEvent(k, A.Interrupted)
  }

  lemma SystemTalks(s: System, e: SystemEvent, k: nat, recorded: bool, withdrawn: bool)
    requires T.Inv(s) && k < |s.helpers| && Talks(s.helpers[k], recorded, withdrawn)
    requires e.HelperEvent? && e.k == k ==> Smooth(e.event) && (withdrawn ==> !e.event.Interrupted?)
    ensures k < |R.Step(s, e).helpers| && Talks(R.Step(s, e).helpers[k], recorded, withdrawn)
  {
    assert T.Good(k, s.helpers[k], s.world);
    StepMoves(s, e, k);
    if e.HelperEvent? && e.k == k && !e.event.Boot? {
      StepTalks(k, s.helpers[k], s.world, e.event, recorded, withdrawn);
    }
  }

  lemma {:induction false} RunTalks(s: System, events: seq<SystemEvent>, k: nat, recorded: bool, withdrawn: bool)
    requires T.Inv(s) && k < |s.helpers| && Talks(s.helpers[k], recorded, withdrawn)
    requires Untroubled(events, k) && (withdrawn ==> Uninterrupted(events, k))
    ensures k < |R.Run(s, events).helpers| && Talks(R.Run(s, events).helpers[k], recorded, withdrawn)
    decreases |events|
  {
    if events != [] {
      SystemTalks(s, events[0], k, recorded, withdrawn);
      T.StepKeepsInv(s, events[0]);
      RunTalks(R.Step(s, events[0]), events[1..], k, recorded, withdrawn);
    }
  }

  /** At its end. */
  predicate AnsweredAtLast(h: Helper) {
    h.phase.Gone? && h.desktopId.Some? ==> Answered(h.out)
  }

  predicate ReportedAtLast(h: Helper) {
    h.phase.Gone? ==> |h.out| > 0 && h.out[|h.out| - 1].ExecutedReply? && ReceiptMail in h.mail
  }

  predicate ConcededAtLast(h: Helper) {
    h.phase.Gone? ==> |h.out| > 0 && h.out[|h.out| - 1] == CanceledReply && (h.requestId.Some? && !h.committed ==> CancelMail in h.mail)
  }

  lemma AtLast(h: Helper, recorded: bool, withdrawn: bool)
    requires Talks(h, recorded, withdrawn)
    ensures AnsweredAtLast(h)
    ensures recorded && Receipted(h) ==> ReportedAtLast(h)
    ensures withdrawn && Discharged(h) ==> ConcededAtLast(h)
  {
  }

  /** A process whose output reaches the desktop, and which comes to its end, has given exactly
      one final reply, as the last thing it said, at most after `ready`; nothing if it never
      learned whom to answer. */
  lemma DesktopGetsOneAnswer(s: System, events: seq<SystemEvent>, k: nat)
    requires T.Inv(s) && k < |s.helpers| && s.helpers[k] == NEWBORN && Untroubled(events, k)
    ensures k < |R.Run(s, events).helpers| && AnsweredAtLast(R.Run(s, events).helpers[k])
  {
    RunTalks(s, events, k, false, false);
    AtLast(R.Run(s, events).helpers[k], false, false);
  }

  /** If its launch was on record, that answer is `executed`, and the phone has its receipt. */
  lemma RecordedLaunchIsReported(s: System, events: seq<SystemEvent>, k: nat)
    requires T.Inv(s) && k < |s.helpers| && Conversing(s.helpers[k]) && s.helpers[k].phase.Confirming? && Untroubled(events, k)
    ensures k < |R.Run(s, events).helpers| && ReportedAtLast(R.Run(s, events).helpers[k])
  {
    RunTalks(s, events, k, true, false);
    UntroubledIsSpared(events, k);
    RecordedLaunchIsReceipted(s, events, k);
    AtLast(R.Run(s, events).helpers[k], true, false);
  }

  lemma UntroubledIsSpared(events: seq<SystemEvent>, k: nat)
    requires Untroubled(events, k)
    ensures Spared(events, k)
  {
    forall i | 0 <= i < |events|
      ensures events[i] != HelperEvent(k, A.Killed)
    {
      assert events[i] == HelperEvent(k, A.Killed) ==> Smooth(events[i].event);
    }
  }

  /** If the desktop withdrew before the commit, and nothing else ended the process, it is
      `canceled`, and the phone has been told as well. */
  lemma WithdrawalIsConceded(s: System, events: seq<SystemEvent>, k: nat)
    requires T.Inv(s) && k < |s.helpers| && Conversing(s.helpers[k]) && Discharged(s.helpers[k])
    requires Withdrew(s.helpers[k]) && (s.helpers[k].phase.Discovering? || Busy(s.helpers[k].phase))
    requires Untroubled(events, k) && Uninterrupted(events, k)
    ensures k < |R.Run(s, events).helpers| && ConcededAtLast(R.Run(s, events).helpers[k])
  {
    RunTalks(s, events, k, false, true);
    UntroubledIsSpared(events, k);
    RunDischarges(s, events, k);
    AtLast(R.Run(s, events).helpers[k], false, true);
  }

  // ----- the table at rest -----

  /** An open row belongs to a process that has not yet cleared it. */
  ghost predicate Attended(s: System) {
    forall id: nat :: P.Open(s.world.rows, id) ==>
      s.holder.Some? && s.holder.value < |s.helpers| && !s.helpers[s.holder.value].phase.Withdrawing?
  }

  predicate NobodyKilled(events: seq<SystemEvent>) {
    forall i :: 0 <= i < |events| ==> !(events[i].HelperEvent? && events[i].event.Killed?)
  }

  lemma LockAttends(s: System, k: nat, intact: bool)
    requires T.Inv(s) && Attended(s) && k < |s.helpers|
    ensures Attended(R.Lock(s, k, intact))
  {
  }

  lemma OwnStepAttends(s: System, k: nat, e: A.Event)
    requires T.Inv(s) && Attended(s) && s.holder == Some(k) && !e.Killed?
    ensures Attended(R.Advance(s, k, e))
  {
    var h := s.helpers[k];
    assert T.Good(k, h, s.world);
    StepSteers(k, h, s.world, e);
    StepBooks(k, h, s.world, e);
    OpenRowsFollow(k, h, s.world, e, A.Step(k, h, s.world, e));
  }

  lemma OpenRowsFollow(k: nat, h: Helper, w: World, e: A.Event, m: Move)
    requires Tidy(h, w) && P.Owns(h, w.rows) && (forall id: nat :: P.Open(w.rows, id) ==> !h.phase.Withdrawing? && !h.phase.Gone?)
    requires Proceeds(h, w, e, m.helper.phase) && Tabled(h, w, e, m.helper, m.world.rows) && !e.Killed?
    ensures forall id: nat :: P.Open(m.world.rows, id) ==> !m.helper.phase.Withdrawing? && !m.helper.phase.Gone?
  {
    if Passes(h, w, e, CleaningUp) {
      ClearingClosesAll(h, w, e, m);
    } else if m.helper.phase.Withdrawing? || m.helper.phase.Gone? {
      EndIsReachedInOrder(h, w, e, m.helper.phase);
    }
  }

  lemma EndIsReachedInOrder(h: Helper, w: World, e: A.Event, phase: Phase)
    requires Proceeds(h, w, e, phase) && !e.Killed? && (phase.Withdrawing? || phase.Gone?)
    ensures h.phase.Withdrawing? || h.phase.Gone? || Passes(h, w, e, CleaningUp)
  {
  }

  lemma ClearingClosesAll(h: Helper, w: World, e: A.Event, m: Move)
    requires Tidy(h, w) && P.Owns(h, w.rows) && Passes(h, w, e, CleaningUp) && Tabled(h, w, e, m.helper, m.world.rows)
    ensures forall id: nat :: !P.Open(m.world.rows, id)
  {
    forall id: nat
      ensures !P.Open(m.world.rows, id)
    {
      assert P.Open(w.rows, id) ==> h.requestId == Some(id) && !h.committed;
    }
  }

  lemma StepAttends(s: System, e: SystemEvent)
    requires T.Inv(s) && Attended(s) && !(e.HelperEvent? && e.event.Killed?)
    ensures Attended(R.Step(s, e))
  {
    if e.HelperEvent? && e.k < |s.helpers| {
      if e.event.Boot? {
        LockAttends(s, e.k, e.event.intact);
      } else if s.holder == Some(e.k) {
        OwnStepAttends(s, e.k, e.event);
      } else {
        assert T.Good(e.k, s.helpers[e.k], s.world);
        T.IdleStep(e.k, s.helpers[e.k], s.world, e.event);
      }
    }
  }

  /** Without a crash no row outlives its process: whenever the lock is free, nothing is
      pending or ready. */
  lemma {:induction false} NoRowOutlivesItsProcess(s: System, events: seq<SystemEvent>, id: nat)
    requires T.Inv(s) && Attended(s) && NobodyKilled(events) && R.Run(s, events).holder.None?
    ensures !P.Open(R.Run(s, events).world.rows, id)
    decreases |events|
  {
    if events != [] {
      StepAttends(s, events[0]);
      T.StepKeepsInv(s, events[0]);
      NoRowOutlivesItsProcess(R.Step(s, events[0]), events[1..], id);
    }
  }

  // ----- clocks -----

  /** No process started in the future. */
  predicate Begun(s: System) {
    forall k :: 0 <= k < |s.helpers| ==> s.helpers[k].startedAt <= s.world.now
  }

  lemma StepBegins(s: System, e: SystemEvent)
    requires T.Inv(s) && Begun(s)
    ensures Begun(R.Step(s, e)) && s.world.now <= R.Step(s, e).world.now
  {
    if e.HelperEvent? && e.k < |s.helpers| && !e.event.Boot? {
      assert T.Good(e.k, s.helpers[e.k], s.world);
      StepSteers(e.k, s.helpers[e.k], s.world, e.event);
      StepBooks(e.k, s.helpers[e.k], s.world, e.event);
    }
  }

  lemma {:induction false} RunBegins(s: System, events: seq<SystemEvent>)
    requires T.Inv(s) && Begun(s)
    ensures Begun(R.Run(s, events))
    decreases |events|
  {
    if events != [] {
      StepBegins(s, events[0]);
      T.StepKeepsInv(s, events[0]);
      RunBegins(R.Step(s, events[0]), events[1..]);
    }
  }

  /** The lock goes to a starting process exactly if it is free and its files are intact; what
      earlier processes left open is closed then, and nothing else changes. Any other starting
      process is gone. */
  lemma LockIsTakenExactly(s: System, k: nat, intact: bool)
    requires k < |s.helpers| && s.helpers[k].phase.Booting?
    ensures var t := R.Step(s, HelperEvent(k, Boot(intact)));
            var taken := s.holder.None? && intact;
            && t.holder == (if taken then Some(k) else s.holder)
            && t.helpers == s.helpers[k := s.helpers[k].(phase := if taken then AwaitStart else Gone)]
            && t.world == s.world.(rows := t.world.rows)
            && t.world.rows.Keys == s.world.rows.Keys
            && (forall id :: id in s.world.rows ==>
                  t.world.rows[id] == s.world.rows[id].(status := if taken && P.Open(s.world.rows, id) then Canceled else s.world.rows[id].status))
  {
  }

  /** The world moves on by itself only in these ways. */
  lemma WorldMovesOn(s: System, p: Payload, time: nat)
    ensures R.Step(s, PhoneSigns(p)) == s.(world := s.world.(trace := s.world.trace + [Signed(p)]))
    ensures R.Step(s, Tick(time)) == s.(world := s.world.(now := s.world.now + time))
    ensures R.Step(s, Fork) == s.(helpers := s.helpers + [NEWBORN])
  {
  }
}
