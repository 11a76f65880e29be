/** What every run of the authority keeps: its rows, its launches and their authority. */
module AuthorityProofs {
  import opened Protocol
  import opened A = AuthoritySteps
  import opened R = AuthorityRuns

  // ----- rows -----

  predicate Flow(a: RowStatus, b: RowStatus) {
    || a == b
    || (a.Pending? && (b.Ready? || b.Canceled?))
    || (a.Ready? && (b.Consumed? || b.Canceled?))
  }

  /** Rows are never dropped or rewritten; a status only moves along `Flow`. */
  predicate Evolves(rows: Rows, rows': Rows) {
    forall id :: id in rows ==>
      && id in rows'
      && rows'[id].payload == rows[id].payload
      && rows'[id].desktopId == rows[id].desktopId
      && Flow(rows[id].status, rows'[id].status)
  }

  predicate Open(rows: Rows, id: nat) {
    id in rows && !Terminal(rows[id].status)
  }

  /** Every open row belongs to this helper, which has not committed. */
  ghost predicate Owns(h: Helper, rows: Rows) {
    forall id: nat :: Open(rows, id) ==> h.requestId == Some(id) && !h.committed && (Busy(h.phase) || Ended(h.phase))
  }

  ghost predicate AtMostOneOpen(rows: Rows) {
    forall a: nat, b: nat :: Open(rows, a) && Open(rows, b) ==> a == b
  }

  predicate HasRow(h: Helper, rows: Rows, status: RowStatus) {
    && h.requestId.Some? && h.payload.Some? && h.desktopId.Some?
    && h.requestId.value in rows
    && rows[h.requestId.value] == Row(h.desktopId.value, h.payload.value, status)
  }

  predicate Backed(h: Helper, rows: Rows) {
    && (h.committed ==> HasRow(h, rows, Consumed))
    && (h.phase.Delivering? || h.phase.Approving? ==> HasRow(h, rows, Pending))
    && (h.phase.Announcing? || h.phase.AwaitCommit? ==> HasRow(h, rows, Ready))
  }

  lemma UpdateEvolves(rows: Rows, id: nat, from: RowStatus, to: RowStatus)
    requires Flow(from, to)
    ensures Evolves(rows, Update(rows, id, from, to))
    ensures forall i: nat :: Open(Update(rows, id, from, to), i) ==> Open(rows, i) || (i == id && from != to && !Terminal(to))
    ensures id in rows && rows[id].status == from ==> Update(rows, id, from, to)[id] == rows[id].(status := to)
  {
  }

  lemma CancelEvolves(rows: Rows, id: nat)
    ensures Evolves(rows, CancelRow(rows, id))
    ensures forall i: nat :: Open(CancelRow(rows, id), i) ==> Open(rows, i) && i != id
  {
    UpdateEvolves(rows, id, Pending, Canceled);
    UpdateEvolves(Update(rows, id, Pending, Canceled), id, Ready, Canceled);
  }

  // ----- the trace -----

  predicate Proven(k: nat, h: Helper, trace: seq<Note>) {
    && h.payload.Some?
    && h.proof.signature < h.proof.verifiedAt < |trace|
    && trace[h.proof.signature] == Signed(h.payload.value)
    && trace[h.proof.verifiedAt] == Verified(k, h.proof.signature)
  }

  predicate Heard(k: nat, h: Helper, trace: seq<Note>) {
    h.watch.Saw? && h.proof.verifiedAt < h.proof.watchedAt < |trace| && trace[h.proof.watchedAt] == Watched(k, h.watch.line)
  }

  predicate Traced(k: nat, h: Helper, trace: seq<Note>) {
    && (h.phase.Announcing? || h.phase.AwaitCommit? || h.committed ==> Proven(k, h, trace))
    && ((h.phase.Announcing? || h.phase.AwaitCommit?) && h.watch.Saw? ==> Heard(k, h, trace))
    && (h.committed ==>
          && Heard(k, h, trace)
          && IsCommit(h.watch.line, h.desktopId)
          && h.proof.watchedAt < h.proof.takenAt < |trace|
          && trace[h.proof.takenAt].Took?
          && h.requestId == Some(trace[h.proof.takenAt].requestId)
          && trace[h.proof.takenAt].helper == k
          && trace[h.proof.takenAt].time < Deadline(h))
    && (h.launch.Some? ==>
          && h.proof.takenAt < h.proof.launchedAt < |trace|
          && trace[h.proof.launchedAt] == Started(k, h.launch.value))
  }

  // ----- one step of one helper -----

  predicate ChangesWorld(e: A.Event) {
    e.Discovered? || e.Approved? || e.CommitRead? || e.RowCleared? || e.WatcherRead? || e.Spawned?
  }

  /** Nothing that the invariant speaks about changes, and the phase does not advance into
      one that promises more. */
  predicate Quiet(h: Helper, g: Helper) {
    && g.requestId == h.requestId
    && g.payload == h.payload
    && g.committed == h.committed
    && g.launch == h.launch
    && g.proof == h.proof
    && (g.payload.Some? ==> g.desktopId == h.desktopId && g.startedAt == h.startedAt)
    && (h.phase.AwaitStart? || (g.wish == h.wish && g.environment == h.environment))
    && (g.watch == h.watch || (g.watch.Lost? && !h.committed))
    && (g.phase.Delivering? || g.phase.Approving? ==> h.phase.Delivering? || h.phase.Approving?)
    && (g.phase.Announcing? || g.phase.AwaitCommit? ==> h.phase.Announcing? || h.phase.AwaitCommit?)
    && (Busy(h.phase) || Ended(h.phase) ==> Busy(g.phase) || Ended(g.phase))
    && (g.phase.Discovering? ==> h.phase.Discovering? || h.phase.AwaitStart?)
    && (g.phase.Booting? ==> h.phase.Booting?)
  }

  /** Quiet, and the helper has learnt nothing about the desktop but perhaps its end. */
  predicate Silent(h: Helper, g: Helper) {
    && Quiet(h, g)
    && g.desktopId == h.desktopId
    && g.wish == h.wish
    && (g.phase.Discovering? ==> h.phase.Discovering?)
    && (g.watch == h.watch || g.watch.Lost?)
  }

  lemma DesertIsQuiet(h: Helper, output: Output)
    requires !Ended(h.phase)
    ensures Silent(h, Desert(h, output)) && Silent(h, Abort(h))
  {
  }

  /** Waiting, writing and mailing are quiet, and so is moving on to a phase that promises
      no more. */
  lemma SendIsQuiet(h: Helper, reply: ReplyEvent, output: Output, phase: Phase)
    requires phase.AwaitCommit? ==> h.phase.Announcing?
    requires phase.AwaitCommit? || phase.CleaningUp? || phase.Failing?
    ensures Silent(h, Send(h, reply, output).(phase := phase))
  {
  }

  lemma MoveIsQuiet(h: Helper, phase: Phase, mail: seq<Mail>)
    requires (phase.Reporting? && h.phase.Confirming?) || (phase.Confirming? && h.phase.Launched?) || phase.Failing? || phase.Gone?
          || (phase.Approving? && h.phase.Delivering?)
    ensures Silent(h, h.(phase := phase)) && Silent(h, h.(phase := phase, mail := mail))
  {
  }

  lemma QuietStart(k: nat, h: Helper, w: World, line: DesktopLine)
    requires Phased(h)
    ensures var m := A.Step(k, h, w, StartRead(line)); m.world == w && Quiet(h, m.helper)
  {
    if h.phase.AwaitStart? {
      ReadingIsQuiet(h, w, line);
    }
  }

  lemma ReadingIsQuiet(h: Helper, w: World, line: DesktopLine)
    requires Phased(h) && h.phase.AwaitStart?
    ensures Quiet(h, ReadStart(h, w, line))
  {
  }

  lemma LossIsQuiet(h: Helper)
    requires Phased(h) && WatcherRuns(h.phase)
    ensures Silent(h, h.(watch := Lost))
  {
  }

  lemma QuietLoss(k: nat, h: Helper, w: World)
    requires Phased(h)
    ensures var m := A.Step(k, h, w, WatcherLost); m.world == w && Silent(h, m.helper)
  {
    if WatcherRuns(h.phase) {
      LossIsQuiet(h);
    }
  }

  lemma QuietDelivery(k: nat, h: Helper, w: World, ok: bool, output: Output)
    requires Phased(h)
    ensures var m := A.Step(k, h, w, Delivered(ok, output)); m.world == w && Silent(h, m.helper)
  {
    if h.phase.Delivering? {
      DesertIsQuiet(h, output);
      MoveIsQuiet(h, Approving, []);
    }
  }

  lemma QuietReady(k: nat, h: Helper, w: World, output: Output)
    requires Phased(h)
    ensures var m := A.Step(k, h, w, ReadySent(output)); m.world == w && Silent(h, m.helper)
  {
    SendIsQuiet(h, ReadyReply, output, Failing);
    if h.phase.Announcing? {
      SendIsQuiet(h, ReadyReply, output, AwaitCommit);
    }
  }

  lemma OutputIsQuiet(h: Helper, phase: Phase, out: seq<ReplyEvent>, closing: bool, terminalSent: bool)
    requires phase.CleaningUp? || phase.Failing?
    ensures Silent(h, h.(phase := phase, out := out, closing := closing, terminalSent := terminalSent))
  {
  }

  lemma QuietReport(k: nat, h: Helper, w: World, pid: nat, output: Output)
    requires Phased(h)
    ensures var m := A.Step(k, h, w, ExecutedSent(pid, output)); m.world == w && Silent(h, m.helper)
  {
    if h.phase.Reporting? {
      var g := Send(h, ExecutedReply(Some(pid as real)), output);
      OutputIsQuiet(h, CleaningUp, g.out, g.closing, Drained(h, output));
      OutputIsQuiet(h, Failing, g.out, g.closing, Drained(h, output));
    }
  }

  lemma QuietError(k: nat, h: Helper, w: World, output: Output)
    requires Phased(h)
    ensures var m := A.Step(k, h, w, ErrorSent(output)); m.world == w && Silent(h, m.helper)
  {
    if h.phase.Failing? {
      var g := SendError(h, output);
      assert g == h.(phase := CleaningUp, out := g.out, closing := g.closing, terminalSent := h.terminalSent);
      OutputIsQuiet(h, CleaningUp, g.out, g.closing, h.terminalSent);
    }
  }

  lemma QuietRecord(k: nat, h: Helper, w: World, ok: bool)
    requires Phased(h)
    ensures var m := A.Step(k, h, w, Recorded(ok)); m.world == w && Silent(h, m.helper)
  {
    MoveIsQuiet(h, Failing, []);
    if h.phase.Launched? {
      MoveIsQuiet(h, Confirming, []);
    }
  }

  lemma QuietReceipt(k: nat, h: Helper, w: World, ok: bool)
    requires Phased(h)
    ensures var m := A.Step(k, h, w, ReceiptDelivered(ok)); m.world == w && Silent(h, m.helper)
  {
    if h.phase.Confirming? {
      MoveIsQuiet(h, Reporting(ok), h.mail + [ReceiptMail]);
    }
  }

  lemma QuietWithdrawal(k: nat, h: Helper, w: World)
    requires Phased(h)
    ensures var m := A.Step(k, h, w, WithdrawalDelivered); m.world == w && Silent(h, m.helper)
  {
    MoveIsQuiet(h, Gone, h.mail + [CancelMail]);
  }

  lemma QuietBreak(k: nat, h: Helper, w: World)
    requires Phased(h)
    ensures var m := A.Step(k, h, w, OutputBroken); m.world == w && Silent(h, m.helper)
  {
  }

  lemma QuietKill(k: nat, h: Helper, w: World)
    requires Phased(h)
    ensures var m := A.Step(k, h, w, Killed); m.world == w && Silent(h, m.helper)
  {
    MoveIsQuiet(h, Gone, []);
  }

  lemma QuietInterrupt(k: nat, h: Helper, w: World)
    requires Phased(h)
    ensures var m := A.Step(k, h, w, Interrupted); m.world == w && Silent(h, m.helper)
  {
    MoveIsQuiet(h, Failing, []);
    if h.phase.Confirming? {
      MoveIsQuiet(h, Reporting(false), h.mail + [ReceiptMail]);
    }
  }

  lemma QuietStep(k: nat, h: Helper, w: World, e: A.Event)
    requires Phased(h) && !ChangesWorld(e)
    ensures var m := A.Step(k, h, w, e);
            m.world == w && Quiet(h, m.helper) && (!e.StartRead? ==> Silent(h, m.helper))
  {
    match e {
      case Boot(_) =>
      case StartRead(line) => QuietStart(k, h, w, line);
      case WatcherLost => QuietLoss(k, h, w);
      case Delivered(ok, output) => QuietDelivery(k, h, w, ok, output);
      case ReadySent(output) => QuietReady(k, h, w, output);
      case Recorded(ok) => QuietRecord(k, h, w, ok);
      case ReceiptDelivered(ok) => QuietReceipt(k, h, w, ok);
      case ExecutedSent(pid, output) => QuietReport(k, h, w, pid, output);
      case ErrorSent(output) => QuietError(k, h, w, output);
      case WithdrawalDelivered => QuietWithdrawal(k, h, w);
      case Interrupted => QuietInterrupt(k, h, w);
      case OutputBroken => QuietBreak(k, h, w);
      case Killed => QuietKill(k, h, w);
    }
  }

  lemma QuietKeeps(k: nat, h: Helper, g: Helper, rows: Rows, trace: seq<Note>)
    requires Phased(h) && Quiet(h, g)
    ensures Backed(h, rows) ==> Backed(g, rows)
    ensures Traced(k, h, trace) ==> Traced(k, g, trace)
    ensures Owns(h, rows) ==> Owns(g, rows)
  {
  }

  /** What one step of helper `k` does to the shared world and to itself. */
  predicate Kept(k: nat, m: Move, w: World) {
    && Evolves(w.rows, m.world.rows)
    && w.trace <= m.world.trace
    && m.world.account == w.account
    && Backed(m.helper, m.world.rows)
    && Traced(k, m.helper, m.world.trace)
  }

  lemma DiscoverKeeps(k: nat, h: Helper, w: World, e: A.Event)
    requires Phased(h) && h.phase.Discovering? && e.Discovered?
    requires Backed(h, w.rows) && Traced(k, h, w.trace) && Owns(h, w.rows)
    ensures Kept(k, Discover(h, w, e), w) && Owns(Discover(h, w, e).helper, Discover(h, w, e).world.rows)
  {
    var m := Discover(h, w, e);
    if m.helper.phase.Delivering? {
      RequestKeeps(k, h, w, e);
    } else {
      assert m.world == w;
    }
  }

  lemma RequestKeeps(k: nat, h: Helper, w: World, e: A.Event)
    requires Phased(h) && h.phase.Discovering? && e.Discovered? && e.directory.Some? && e.requestId !in w.rows && e.stored
    requires Backed(h, w.rows) && Traced(k, h, w.trace) && Owns(h, w.rows)
    ensures Kept(k, Request(h, w, e), w) && Owns(Request(h, w, e).helper, Request(h, w, e).world.rows)
  {
    var m := Request(h, w, e);
    assert HasRow(m.helper, m.world.rows, Pending);
    assert forall id: nat :: Open(m.world.rows, id) ==> id == e.requestId || Open(w.rows, id);
  }

  lemma ApprovalIsProven(k: nat, h: Helper, w: World, answer: Answer)
    requires h.phase.Approving? && h.watch.Watching? && !h.committed && h.launch.None? && Verifies(h, w, answer)
    ensures var g := h.(phase := Announcing, proof := h.proof.(signature := answer.signature, verifiedAt := |w.trace|));
            Traced(k, g, w.trace + [Verified(k, answer.signature)])
  {
  }

  lemma ApproveKeeps(k: nat, h: Helper, w: World, answer: Answer, output: Output)
    requires Phased(h) && h.phase.Approving?
    requires Backed(h, w.rows) && Traced(k, h, w.trace) && Owns(h, w.rows)
    ensures Kept(k, Approve(k, h, w, answer, output), w)
    ensures Owns(Approve(k, h, w, answer, output).helper, Approve(k, h, w, answer, output).world.rows)
  {
    var m := Approve(k, h, w, answer, output);
    if h.watch.Watching? && Verifies(h, w, answer) {
      UpdateEvolves(w.rows, h.requestId.value, Pending, Ready);
      ApprovalIsProven(k, h, w, answer);
      assert m.world.rows == Update(w.rows, h.requestId.value, Pending, Ready);
      assert HasRow(m.helper, m.world.rows, Ready);
    } else {
      assert m.world == w && (m.helper == Desert(h, output) || m.helper == Abort(h));
    }
  }

  lemma CommitKeeps(k: nat, h: Helper, w: World, e: A.Event)
    requires Phased(h) && h.phase.AwaitCommit? && e.CommitRead?
    requires Backed(h, w.rows) && Traced(k, h, w.trace) && Owns(h, w.rows)
    ensures Kept(k, AcceptCommit(k, h, w, e), w)
    ensures Owns(AcceptCommit(k, h, w, e).helper, AcceptCommit(k, h, w, e).world.rows)
  {
    var m := AcceptCommit(k, h, w, e);
    var id := h.requestId.value;
    if m.world == w {
      assert m.helper == h || m.helper == Desert(h, e.output) || m.helper == Abort(h);
    } else {
      UpdateEvolves(w.rows, id, Ready, Consumed);
      assert m.world.rows == Update(w.rows, id, Ready, Consumed);
      assert m.world.trace == w.trace + [Took(k, id, w.now)];
      assert m.helper == h.(phase := Accepted, committed := true, proof := h.proof.(takenAt := |w.trace|));
      assert HasRow(m.helper, m.world.rows, Consumed);
      assert Traced(k, m.helper, m.world.trace);
    }
  }

  lemma SpawnKeeps(k: nat, h: Helper, w: World, ok: bool)
    requires Phased(h) && Described(h) && h.phase.Accepted?
    requires Backed(h, w.rows) && Traced(k, h, w.trace) && Owns(h, w.rows)
    ensures Kept(k, Spawn(k, h, w, ok), w)
    ensures Owns(Spawn(k, h, w, ok).helper, Spawn(k, h, w, ok).world.rows)
  {
    var m := Spawn(k, h, w, ok);
    assert m.world.rows == w.rows;
    if ok {
      assert m.world.trace == w.trace + [Started(k, m.helper.launch.value)];
    }
  }

  lemma ClearKeeps(k: nat, h: Helper, w: World)
    requires Phased(h) && h.phase.CleaningUp?
    requires Backed(h, w.rows) && Traced(k, h, w.trace) && Owns(h, w.rows)
    ensures Kept(k, ClearRow(h, w), w)
    ensures Owns(ClearRow(h, w).helper, ClearRow(h, w).world.rows)
    ensures forall id: nat :: !Open(ClearRow(h, w).world.rows, id)
  {
    if h.requestId.Some? && !h.committed {
      CancelEvolves(w.rows, h.requestId.value);
      assert Traced(k, ClearRow(h, w).helper, w.trace);
    } else {
      assert forall id: nat :: !Open(w.rows, id);
    }
  }

  /** A line is heard: nothing but the watch and the trace changes. */
  lemma HearingKeeps(k: nat, h: Helper, w: World, line: DesktopLine)
    requires Phased(h) && WatcherRuns(h.phase) && h.watch.Watching? && Backed(h, w.rows) && Traced(k, h, w.trace) && Owns(h, w.rows)
    ensures var g := h.(watch := Saw(line), proof := h.proof.(watchedAt := |w.trace|));
            Backed(g, w.rows) && Traced(k, g, w.trace + [Watched(k, line)]) && Owns(g, w.rows)
  {
  }

  lemma WatchKeeps(k: nat, h: Helper, w: World, line: DesktopLine)
    requires Phased(h) && Backed(h, w.rows) && Traced(k, h, w.trace) && Owns(h, w.rows)
    ensures var m := A.Step(k, h, w, WatcherRead(line));
            Kept(k, m, w) && Owns(m.helper, m.world.rows)
  {
    if WatcherRuns(h.phase) && h.watch.Watching? {
      HearingKeeps(k, h, w, line);
    }
  }

  lemma QuietStepKeeps(k: nat, h: Helper, w: World, e: A.Event)
    requires Phased(h) && !ChangesWorld(e) && Backed(h, w.rows) && Traced(k, h, w.trace) && Owns(h, w.rows)
    ensures var m := A.Step(k, h, w, e);
            Kept(k, m, w) && Owns(m.helper, m.world.rows)
  {
    QuietStep(k, h, w, e);
    QuietKeeps(k, h, A.Step(k, h, w, e).helper, w.rows, w.trace);
  }

  lemma StayKeeps(k: nat, h: Helper, w: World)
    requires Backed(h, w.rows) && Traced(k, h, w.trace)
    ensures Kept(k, Move(h, w), w)
  {
  }

  lemma ClearStepKeeps(k: nat, h: Helper, w: World)
    requires Phased(h) && Backed(h, w.rows) && Traced(k, h, w.trace) && Owns(h, w.rows)
    ensures var m := A.Step(k, h, w, RowCleared);
            Kept(k, m, w) && Owns(m.helper, m.world.rows)
  {
    if h.phase.CleaningUp? {
      ClearKeeps(k, h, w);
    } else {
      StayKeeps(k, h, w);
    }
  }

  lemma SpawnStepKeeps(k: nat, h: Helper, w: World, ok: bool)
    requires Phased(h) && Described(h) && Backed(h, w.rows) && Traced(k, h, w.trace) && Owns(h, w.rows)
    ensures var m := A.Step(k, h, w, Spawned(ok));
            Kept(k, m, w) && Owns(m.helper, m.world.rows)
  {
    if h.phase.Accepted? {
      SpawnKeeps(k, h, w, ok);
    } else {
      StayKeeps(k, h, w);
    }
  }

  lemma ApprovalStepKeeps(k: nat, h: Helper, w: World, e: A.Event)
    requires Phased(h) && (e.Discovered? || e.Approved? || e.CommitRead?)
    requires Backed(h, w.rows) && Traced(k, h, w.trace) && Owns(h, w.rows)
    ensures var m := A.Step(k, h, w, e);
            Kept(k, m, w) && Owns(m.helper, m.world.rows)
  {
    StayKeeps(k, h, w);
    match e {
      case Discovered(_, _, _, _, _, _, _) => if h.phase.Discovering? { DiscoverKeeps(k, h, w, e); }
      case Approved(answer, output) => if h.phase.Approving? { ApproveKeeps(k, h, w, answer, output); }
      case CommitRead(_, _, _) => if h.phase.AwaitCommit? { CommitKeeps(k, h, w, e); }
    }
  }

  lemma ExecutionStepKeeps(k: nat, h: Helper, w: World, e: A.Event)
    requires Phased(h) && Described(h) && (e.RowCleared? || e.WatcherRead? || e.Spawned?)
    requires Backed(h, w.rows) && Traced(k, h, w.trace) && Owns(h, w.rows)
    ensures var m := A.Step(k, h, w, e);
            Kept(k, m, w) && Owns(m.helper, m.world.rows)
  {
    match e {
      case RowCleared => ClearStepKeeps(k, h, w);
      case WatcherRead(line) => WatchKeeps(k, h, w, line);
      case Spawned(ok) => SpawnStepKeeps(k, h, w, ok);
    }
  }

  lemma StepKeeps(k: nat, h: Helper, w: World, e: A.Event)
    requires Sound(h) && Backed(h, w.rows) && Traced(k, h, w.trace) && Owns(h, w.rows)
    ensures var m := A.Step(k, h, w, e);
            Kept(k, m, w) && Owns(m.helper, m.world.rows)
  {
    if e.Discovered? || e.Approved? || e.CommitRead? {
      ApprovalStepKeeps(k, h, w, e);
    } else if ChangesWorld(e) {
      ExecutionStepKeeps(k, h, w, e);
    } else {
      QuietStepKeeps(k, h, w, e);
    }
  }

  /** The wish and what was built from it do not change once they are checked. */
  predicate KeepsWish(h: Helper, g: Helper) {
    && g.wish == h.wish && g.environment == h.environment && g.desktopId == h.desktopId
    && (g.payload.Some? || g.phase.Discovering? ==> h.payload.Some? || h.phase.Discovering?)
    && (g.phase.Booting? ==> h.phase.Booting?)
  }

  lemma DesertKeepsWish(h: Helper, output: Output)
    ensures KeepsWish(h, Desert(h, output)) && KeepsWish(h, Abort(h))
    ensures Desert(h, output).watch == h.watch
  {
  }

  lemma DiscoveryKeepsWish(h: Helper, w: World, e: A.Event)
    requires e.Discovered? && h.phase.Discovering? && h.desktopId.Some?
    ensures KeepsWish(h, Discover(h, w, e).helper) && Discover(h, w, e).helper.watch == h.watch
  {
    DesertKeepsWish(h, e.output);
  }

  lemma ApprovalKeepsWish(k: nat, h: Helper, w: World, answer: Answer, output: Output)
    requires h.requestId.Some?
    ensures KeepsWish(h, Approve(k, h, w, answer, output).helper) && Approve(k, h, w, answer, output).helper.watch == h.watch
  {
    DesertKeepsWish(h, output);
  }

  lemma CommitKeepsWish(k: nat, h: Helper, w: World, e: A.Event)
    requires e.CommitRead? && h.requestId.Some?
    ensures KeepsWish(h, AcceptCommit(k, h, w, e).helper) && AcceptCommit(k, h, w, e).helper.watch == h.watch
  {
    DesertKeepsWish(h, e.output);
  }

  lemma ClearingKeepsWish(k: nat, h: Helper, w: World)
    ensures KeepsWish(h, A.Step(k, h, w, RowCleared).helper) && A.Step(k, h, w, RowCleared).helper.watch == h.watch
  {
  }

  lemma HearingKeepsWish(k: nat, h: Helper, w: World, line: DesktopLine)
    ensures KeepsWish(h, A.Step(k, h, w, WatcherRead(line)).helper)
  {
  }

  lemma SpawningKeepsWish(k: nat, h: Helper, w: World, ok: bool)
    ensures KeepsWish(h, A.Step(k, h, w, Spawned(ok)).helper) && A.Step(k, h, w, Spawned(ok)).helper.watch == h.watch
  {
  }

  lemma LoudKeepsWish(k: nat, h: Helper, w: World, e: A.Event)
    requires ChangesWorld(e)
    ensures KeepsWish(h, A.Step(k, h, w, e).helper)
    ensures !e.WatcherRead? ==> A.Step(k, h, w, e).helper.watch == h.watch
  {
    match e {
      case Discovered(_, _, _, _, _, _, _) => if h.phase.Discovering? && h.desktopId.Some? { DiscoveryKeepsWish(h, w, e); }
      case Approved(answer, output) => if h.phase.Approving? && h.requestId.Some? { ApprovalKeepsWish(k, h, w, answer, output); }
      case CommitRead(_, _, _) => if h.phase.AwaitCommit? && h.requestId.Some? { CommitKeepsWish(k, h, w, e); }
      case RowCleared => ClearingKeepsWish(k, h, w);
      case WatcherRead(line) => HearingKeepsWish(k, h, w, line);
      case Spawned(ok) => SpawningKeepsWish(k, h, w, ok);
    }
  }

  lemma ReadingIsChecked(h: Helper, w: World, line: DesktopLine)
    requires Phased(h) && h.phase.AwaitStart?
    ensures Checked(ReadStart(h, w, line), w.account)
  {
  }

  lemma QuietKeepsWish(k: nat, h: Helper, w: World, e: A.Event)
    requires Phased(h) && !ChangesWorld(e) && !h.phase.AwaitStart?
    ensures KeepsWish(h, A.Step(k, h, w, e).helper)
  {
    QuietStep(k, h, w, e);
  }

  lemma StepIsChecked(k: nat, h: Helper, w: World, e: A.Event)
    requires Phased(h) && Checked(h, w.account)
    ensures Checked(A.Step(k, h, w, e).helper, w.account)
  {
    if ChangesWorld(e) {
      LoudKeepsWish(k, h, w, e);
    } else if !h.phase.AwaitStart? {
      QuietKeepsWish(k, h, w, e);
    } else if e.StartRead? {
      ReadingIsChecked(h, w, e.line);
    } else {
      WaitingIsChecked(k, h, w, e);
    }
  }

  /** A process that has read nothing has nothing to check. */
  lemma WaitingIsChecked(k: nat, h: Helper, w: World, e: A.Event)
    requires Phased(h) && h.phase.AwaitStart? && !ChangesWorld(e) && !e.StartRead?
    ensures Checked(A.Step(k, h, w, e).helper, w.account)
  {
    QuietStep(k, h, w, e);
  }
}
