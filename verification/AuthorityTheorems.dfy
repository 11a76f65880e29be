/** The authority's guarantees over every run. */
module AuthorityTheorems {
  import opened Protocol
  import opened TextChecks
  import opened A = AuthoritySteps
  import opened R = AuthorityRuns
  import opened P = AuthorityProofs

  predicate Running(phase: Phase) {
    !phase.Booting? && !phase.Gone?
  }

  predicate Good(k: nat, h: Helper, w: World) {
    Sound(h) && Checked(h, w.account) && Backed(h, w.rows) && Traced(k, h, w.trace)
  }

  predicate AllGood(helpers: seq<Helper>, w: World) {
    forall k :: 0 <= k < |helpers| ==> Good(k, helpers[k], w)
  }

  /** Only the holder of the lock runs. */
  predicate Exclusive(helpers: seq<Helper>, holder: Option<nat>) {
    && (holder.Some? ==> holder.value < |helpers|)
    && forall k :: 0 <= k < |helpers| ==> (Running(helpers[k].phase) <==> holder == Some(k))
  }

  predicate Distinct(helpers: seq<Helper>) {
    forall j, k :: 0 <= j < k < |helpers| && helpers[j].committed && helpers[k].committed ==>
      helpers[j].requestId != helpers[k].requestId
  }

  /** What a note about helper `h` at position `i` says of it for good. */
  predicate Recalls(h: Helper, note: Note, i: nat) {
    && (note.Started? ==> h.launch == Some(note.launch) && h.proof.launchedAt == i)
    && (note.Took? ==> h.committed && h.requestId == Some(note.requestId) && h.proof.takenAt == i)
  }

  /** Every launch in the trace is the one launch of the helper it names, and every
      consumption the one consumption. */
  predicate Marked(helpers: seq<Helper>, trace: seq<Note>) {
    forall i: nat :: i < |trace| && (trace[i].Started? || trace[i].Took?) ==>
      trace[i].helper < |helpers| && Recalls(helpers[trace[i].helper], trace[i], i)
  }

  ghost predicate Inv(s: System) {
    && AllGood(s.helpers, s.world)
    && Exclusive(s.helpers, s.holder)
    && AtMostOneOpen(s.world.rows)
    && (s.holder.Some? ==> Owns(s.helpers[s.holder.value], s.world.rows))
    && Distinct(s.helpers)
    && Marked(s.helpers, s.world.trace)
  }

  /** A helper that does not hold the lock changes nothing but its own end. */
  lemma IdleStep(k: nat, h: Helper, w: World, e: A.Event)
    requires Phased(h) && !Running(h.phase)
    ensures var m := A.Step(k, h, w, e);
            m.world == w && Quiet(h, m.helper) && !Running(m.helper.phase)
  {
    if ChangesWorld(e) {
      IdleIsDeaf(k, h, w, e);
    } else {
      QuietStep(k, h, w, e);
      IdleStaysIdle(k, h, w, e);
    }
  }

  lemma IdleIsDeaf(k: nat, h: Helper, w: World, e: A.Event)
    requires !Running(h.phase) && ChangesWorld(e)
    ensures A.Step(k, h, w, e) == Move(h, w)
  {
    match e {
      case Discovered(_, _, _, _, _, _, _) =>
      case Approved(_, _) =>
      case CommitRead(_, _, _) =>
      case RowCleared =>
      case WatcherRead(_) =>
      case Spawned(_) =>
    }
  }

  lemma IdleStaysIdle(k: nat, h: Helper, w: World, e: A.Event)
    requires !Running(h.phase) && !ChangesWorld(e)
    ensures !Running(A.Step(k, h, w, e).helper.phase)
  {
  }

  /** What another helper's step leaves of a helper's own record. */
  lemma OthersStayGood(k: nat, h: Helper, w: World, w': World)
    requires Good(k, h, w) && !Running(h.phase)
    requires Evolves(w.rows, w'.rows) && w.trace <= w'.trace && w'.account == w.account
    ensures Good(k, h, w')
  {
  }

  /** What one step adds to the trace, and what it leaves of the marks already there. */
  predicate Notes(k: nat, h: Helper, w: World, m: Move) {
    && w.trace <= m.world.trace
    && (h.launch.Some? ==> m.helper.launch == h.launch && m.helper.proof.launchedAt == h.proof.launchedAt)
    && (h.committed ==> m.helper.committed && m.helper.requestId == h.requestId && m.helper.proof.takenAt == h.proof.takenAt)
    && (forall i: nat :: |w.trace| <= i < |m.world.trace| && (m.world.trace[i].Started? || m.world.trace[i].Took?) ==>
          m.world.trace[i].helper == k && Recalls(m.helper, m.world.trace[i], i))
    && (forall i: nat :: |w.trace| <= i < |m.world.trace| ==> !m.world.trace[i].Signed?)
  }

  lemma QuietNotes(k: nat, h: Helper, w: World, g: Helper)
    requires Quiet(h, g)
    ensures Notes(k, h, w, Move(g, w))
  {
  }

  lemma DesertNotes(k: nat, h: Helper, w: World, output: Output)
    ensures Notes(k, h, w, Move(Desert(h, output), w)) && Notes(k, h, w, Move(Abort(h), w)) && Notes(k, h, w, Move(h, w))
  {
  }

  lemma DiscoveryNotes(k: nat, h: Helper, w: World, e: A.Event)
    requires Phased(h) && h.phase.Discovering? && e.Discovered?
    ensures Notes(k, h, w, Discover(h, w, e))
  {
    DesertNotes(k, h, w, e.output);
  }

  lemma ApprovalNotes(k: nat, h: Helper, w: World, answer: Answer, output: Output)
    requires Phased(h) && h.phase.Approving?
    ensures Notes(k, h, w, Approve(k, h, w, answer, output))
  {
    DesertNotes(k, h, w, output);
  }

  lemma CommitNotes(k: nat, h: Helper, w: World, e: A.Event)
    requires Phased(h) && h.phase.AwaitCommit? && e.CommitRead?
    ensures Notes(k, h, w, AcceptCommit(k, h, w, e))
  {
    DesertNotes(k, h, w, e.output);
  }

  lemma SpawnNotes(k: nat, h: Helper, w: World, ok: bool)
    requires Phased(h) && h.phase.Accepted? && h.requestId.Some? && h.directory.Some?
    ensures Notes(k, h, w, Spawn(k, h, w, ok))
  {
    DesertNotes(k, h, w, Output(false, false, false));
  }

  lemma ClearNotes(k: nat, h: Helper, w: World)
    ensures Notes(k, h, w, ClearRow(h, w))
  {
  }

  lemma HearingNotes(k: nat, h: Helper, w: World, line: DesktopLine)
    ensures Notes(k, h, w, A.Step(k, h, w, WatcherRead(line)))
  {
  }

  lemma LoudNotes(k: nat, h: Helper, w: World, e: A.Event)
    requires Phased(h) && ChangesWorld(e)
    ensures Notes(k, h, w, A.Step(k, h, w, e))
  {
    DesertNotes(k, h, w, Output(false, false, false));
    match e {
      case Discovered(_, _, _, _, _, _, _) => if h.phase.Discovering? { DiscoveryNotes(k, h, w, e); }
      case Approved(answer, output) => if h.phase.Approving? { ApprovalNotes(k, h, w, answer, output); }
      case CommitRead(_, _, _) => if h.phase.AwaitCommit? { CommitNotes(k, h, w, e); }
      case RowCleared => if h.phase.CleaningUp? { ClearNotes(k, h, w); }
      case WatcherRead(line) => HearingNotes(k, h, w, line);
      case Spawned(ok) => if h.phase.Accepted? && h.requestId.Some? && h.directory.Some? { SpawnNotes(k, h, w, ok); }
    }
  }

  lemma StepNotes(k: nat, h: Helper, w: World, e: A.Event)
    requires Phased(h)
    ensures Notes(k, h, w, A.Step(k, h, w, e))
  {
    if ChangesWorld(e) {
      LoudNotes(k, h, w, e);
    } else {
      QuietStep(k, h, w, e);
      QuietNotes(k, h, w, A.Step(k, h, w, e).helper);
    }
  }

  lemma PhasedOf(s: System, k: nat)
    requires Inv(s) && k < |s.helpers|
    ensures Phased(s.helpers[k])
  {
    assert Good(k, s.helpers[k], s.world);
  }

  lemma NotesOf(s: System, k: nat, e: A.Event)
    requires Inv(s) && k < |s.helpers|
    ensures Notes(k, s.helpers[k], s.world, A.Step(k, s.helpers[k], s.world, e))
  {
    PhasedOf(s, k);
    StepNotes(k, s.helpers[k], s.world, e);
  }

  /** A process that has read nothing may get the lock, or be gone. */
  lemma BootingStaysGood(k: nat, h: Helper, w: World, w': World, phase: Phase)
    requires Good(k, h, w) && h.phase.Booting? && (phase.AwaitStart? || phase.Gone?)
    requires Evolves(w.rows, w'.rows) && w.trace == w'.trace && w'.account == w.account
    ensures Good(k, h.(phase := phase), w')
  {
    MoveIsSound(h, phase);
  }

  /** What is promised of all helpers together does not speak of their phases. */
  lemma PhaseKeepsMarks(helpers: seq<Helper>, k: nat, phase: Phase, trace: seq<Note>)
    requires k < |helpers| && Distinct(helpers) && Marked(helpers, trace)
    ensures Distinct(helpers[k := helpers[k].(phase := phase)]) && Marked(helpers[k := helpers[k].(phase := phase)], trace)
  {
    DistinctStays(helpers, k, helpers[k].(phase := phase));
    MarksStay(helpers, k, helpers[k].(phase := phase), trace, trace);
  }

  lemma LockKeepsGood(s: System, k: nat, intact: bool)
    requires Inv(s) && k < |s.helpers| && s.helpers[k].phase.Booting?
    ensures AllGood(Lock(s, k, intact).helpers, Lock(s, k, intact).world)
  {
    var t := Lock(s, k, intact);
    SweepEvolves(s.world.rows);
    forall j | 0 <= j < |t.helpers|
      ensures Good(j, t.helpers[j], t.world)
    {
      assert Good(j, s.helpers[j], s.world);
      if j == k {
        BootingStaysGood(k, s.helpers[k], s.world, t.world, t.helpers[k].phase);
      } else if s.holder.None? {
        OthersStayGood(j, s.helpers[j], s.world, t.world);
      }
    }
  }

  lemma LockKeepsInv(s: System, k: nat, intact: bool)
    requires Inv(s) && k < |s.helpers|
    ensures Inv(Lock(s, k, intact))
  {
    if s.helpers[k].phase.Booting? {
      LockKeepsGood(s, k, intact);
      SweepEvolves(s.world.rows);
      PhaseKeepsMarks(s.helpers, k, AwaitStart, s.world.trace);
      PhaseKeepsMarks(s.helpers, k, Gone, s.world.trace);
    }
  }

  lemma SweepEvolves(rows: Rows)
    ensures Evolves(rows, Sweep(rows))
    ensures forall id: nat :: !Open(Sweep(rows), id)
  {
  }

  /** The step of the process that holds the lock. */
  lemma OwnStepKeepsGood(k: nat, h: Helper, w: World, e: A.Event)
    requires Good(k, h, w) && Owns(h, w.rows)
    ensures var m := A.Step(k, h, w, e);
            && Good(k, m.helper, m.world) && Owns(m.helper, m.world.rows)
            && Evolves(w.rows, m.world.rows) && w.trace <= m.world.trace && m.world.account == w.account
  {
    StepIsSound(k, h, w, e);
    StepIsChecked(k, h, w, e);
    StepKeeps(k, h, w, e);
  }

  lemma IdleStepKeepsGood(k: nat, h: Helper, w: World, e: A.Event)
    requires Good(k, h, w) && !Running(h.phase)
    ensures var m := A.Step(k, h, w, e);
            Good(k, m.helper, w) && m.world == w && !Running(m.helper.phase) && Quiet(h, m.helper)
  {
    StepIsSound(k, h, w, e);
    StepIsChecked(k, h, w, e);
    IdleStep(k, h, w, e);
    QuietKeeps(k, h, A.Step(k, h, w, e).helper, w.rows, w.trace);
  }

  /** What one step of process `k` does to the shared world. */
  lemma AdvanceChangesWorld(s: System, k: nat, e: A.Event)
    requires Inv(s) && k < |s.helpers|
    ensures var m := A.Step(k, s.helpers[k], s.world, e);
            && Good(k, m.helper, m.world)
            && Evolves(s.world.rows, m.world.rows) && s.world.trace <= m.world.trace && m.world.account == s.world.account
            && (s.holder == Some(k) ==> Owns(m.helper, m.world.rows))
            && (s.holder != Some(k) ==> m.world == s.world && !Running(m.helper.phase) && Quiet(s.helpers[k], m.helper))
  {
    assert Good(k, s.helpers[k], s.world);
    if s.holder == Some(k) {
      OwnStepKeepsGood(k, s.helpers[k], s.world, e);
    } else {
      IdleStepKeepsGood(k, s.helpers[k], s.world, e);
    }
  }

  lemma AdvanceKeepsGood(s: System, k: nat, e: A.Event)
    requires Inv(s) && k < |s.helpers|
    ensures AllGood(Advance(s, k, e).helpers, Advance(s, k, e).world)
  {
    var m := A.Step(k, s.helpers[k], s.world, e);
    AdvanceChangesWorld(s, k, e);
    if s.holder == Some(k) {
      AllOthersStayGood(s.helpers, k, s.world, m.world);
    }
    UpdateStaysGood(s.helpers, k, m.helper, m.world);
  }

  lemma UpdateStaysGood(helpers: seq<Helper>, k: nat, g: Helper, w: World)
    requires k < |helpers| && Good(k, g, w)
    requires forall j :: 0 <= j < |helpers| && j != k ==> Good(j, helpers[j], w)
    ensures AllGood(helpers[k := g], w)
  {
  }

  lemma AllOthersStayGood(helpers: seq<Helper>, k: nat, w: World, w': World)
    requires forall j :: 0 <= j < |helpers| ==> Good(j, helpers[j], w) && (j != k ==> !Running(helpers[j].phase))
    requires Evolves(w.rows, w'.rows) && w.trace <= w'.trace && w'.account == w.account
    ensures forall j :: 0 <= j < |helpers| && j != k ==> Good(j, helpers[j], w')
  {
    forall j | 0 <= j < |helpers| && j != k
      ensures Good(j, helpers[j], w')
    {
      OthersStayGood(j, helpers[j], w, w');
    }
  }

  lemma AdvanceKeepsDistinct(s: System, k: nat, e: A.Event)
    requires Inv(s) && k < |s.helpers|
    ensures Distinct(Advance(s, k, e).helpers)
  {
    var h := s.helpers[k];
    var g := A.Step(k, h, s.world, e).helper;
    assert Good(k, h, s.world);
    StepNotes(k, h, s.world, e);
    if !h.committed && g.committed {
      CommitsOpenRow(k, h, s.world, e);
      forall j | 0 <= j < |s.helpers| && s.helpers[j].committed
        ensures s.helpers[j].requestId != g.requestId
      {
        assert Good(j, s.helpers[j], s.world);
      }
    }
    DistinctStays(s.helpers, k, g);
  }

  lemma DistinctStays(helpers: seq<Helper>, k: nat, g: Helper)
    requires Distinct(helpers) && k < |helpers|
    requires helpers[k].committed ==> g.requestId == helpers[k].requestId
    requires !helpers[k].committed && g.committed ==>
               forall j :: 0 <= j < |helpers| && helpers[j].committed ==> helpers[j].requestId != g.requestId
    ensures Distinct(helpers[k := g])
  {
  }

  lemma AdvanceKeepsMarked(s: System, k: nat, e: A.Event)
    requires Inv(s) && k < |s.helpers|
    ensures Marked(Advance(s, k, e).helpers, Advance(s, k, e).world.trace)
  {
    assert Good(k, s.helpers[k], s.world);
    StepNotes(k, s.helpers[k], s.world, e);
    var m := A.Step(k, s.helpers[k], s.world, e);
    MarksStay(s.helpers, k, m.helper, s.world.trace, m.world.trace);
  }

  lemma MarksStay(helpers: seq<Helper>, k: nat, g: Helper, trace: seq<Note>, trace': seq<Note>)
    requires Marked(helpers, trace) && k < |helpers| && trace <= trace'
    requires helpers[k].launch.Some? ==> g.launch == helpers[k].launch && g.proof.launchedAt == helpers[k].proof.launchedAt
    requires helpers[k].committed ==> g.committed && g.requestId == helpers[k].requestId && g.proof.takenAt == helpers[k].proof.takenAt
    requires forall i: nat :: |trace| <= i < |trace'| && (trace'[i].Started? || trace'[i].Took?) ==> trace'[i].helper == k && Recalls(g, trace'[i], i)
    ensures Marked(helpers[k := g], trace')
  {
    forall i: nat | i < |trace'| && (trace'[i].Started? || trace'[i].Took?)
      ensures trace'[i].helper < |helpers| && Recalls(helpers[k := g][trace'[i].helper], trace'[i], i)
    {
      if i < |trace| {
        assert trace'[i] == trace[i];
        assert Recalls(helpers[trace[i].helper], trace[i], i);
      }
    }
  }

  /** A helper commits on a row that was still open. */
  lemma CommitsOpenRow(k: nat, h: Helper, w: World, e: A.Event)
    requires Good(k, h, w) && !h.committed && A.Step(k, h, w, e).helper.committed
    ensures A.Step(k, h, w, e).helper.requestId == h.requestId
    ensures h.requestId.Some? && Open(w.rows, h.requestId.value)
  {
    if ChangesWorld(e) {
      OnlyCommitCommits(k, h, w, e);
    } else {
      QuietStep(k, h, w, e);
    }
  }

  lemma OnlyCommitCommits(k: nat, h: Helper, w: World, e: A.Event)
    requires ChangesWorld(e) && !h.committed && A.Step(k, h, w, e).helper.committed
    ensures A.Step(k, h, w, e).helper.requestId == h.requestId
    ensures h.requestId.Some? && Open(w.rows, h.requestId.value)
  {
    match e {
      case Discovered(_, _, _, _, _, _, _) =>
      case Approved(_, _) =>
      case CommitRead(_, _, _) =>
      case RowCleared =>
      case WatcherRead(_) =>
      case Spawned(_) =>
    }
  }

  lemma AdvanceKeepsInv(s: System, k: nat, e: A.Event)
    requires Inv(s) && k < |s.helpers| && !e.Boot?
    ensures Inv(Advance(s, k, e))
  {
    var t := Advance(s, k, e);
    AdvanceChangesWorld(s, k, e);
    AdvanceKeepsGood(s, k, e);
    AdvanceKeepsDistinct(s, k, e);
    AdvanceKeepsMarked(s, k, e);
    assert Running(t.helpers[k].phase) ==> Running(s.helpers[k].phase);
    if s.holder == Some(k) {
      AdvanceIsExclusive(s, k, e);
    }
  }

  lemma AdvanceIsExclusive(s: System, k: nat, e: A.Event)
    requires Inv(s) && k < |s.helpers| && s.holder == Some(k)
    ensures Exclusive(Advance(s, k, e).helpers, Advance(s, k, e).holder)
  {
    assert Good(k, s.helpers[k], s.world);
    NeverBootsAgain(k, s.helpers[k], s.world, e);
    HolderStaysExclusive(s.helpers, k, A.Step(k, s.helpers[k], s.world, e).helper);
  }

  lemma HolderStaysExclusive(helpers: seq<Helper>, k: nat, g: Helper)
    requires k < |helpers| && Exclusive(helpers, Some(k)) && !g.phase.Booting?
    ensures Exclusive(helpers[k := g], if g.phase.Gone? then None else Some(k))
  {
  }

  lemma NeverBootsAgain(k: nat, h: Helper, w: World, e: A.Event)
    requires Phased(h) && !h.phase.Booting?
    ensures !A.Step(k, h, w, e).helper.phase.Booting?
  {
    if ChangesWorld(e) {
      LoudKeepsWish(k, h, w, e);
    } else {
      QuietStep(k, h, w, e);
    }
  }

  lemma StepKeepsInv(s: System, e: SystemEvent)
    requires Inv(s)
    ensures Inv(R.Step(s, e))
  {
    match e {
      case Fork => ForkKeepsInv(s);
      case PhoneSigns(p) => WorldKeepsInv(s, s.world.(trace := s.world.trace + [Signed(p)]));
      case Tick(time) => WorldKeepsInv(s, s.world.(now := s.world.now + time));
      case HelperEvent(k, event) =>
        if k < |s.helpers| {
          if event.Boot? {
            LockKeepsInv(s, k, event.intact);
          } else {
            AdvanceKeepsInv(s, k, event);
          }
        }
    }
  }

  lemma ForkKeepsInv(s: System)
    requires Inv(s)
    ensures Inv(R.Step(s, Fork))
  {
    var t := R.Step(s, Fork);
    assert Good(|s.helpers|, NEWBORN, s.world);
    forall k | 0 <= k < |s.helpers|
      ensures t.helpers[k] == s.helpers[k] && Good(k, t.helpers[k], t.world)
    {
    }
    NewbornIsIdle(s.helpers, s.holder, s.world.trace);
  }

  lemma NewbornIsIdle(helpers: seq<Helper>, holder: Option<nat>, trace: seq<Note>)
    requires Exclusive(helpers, holder) && Distinct(helpers) && Marked(helpers, trace)
    ensures Exclusive(helpers + [NEWBORN], holder) && Distinct(helpers + [NEWBORN]) && Marked(helpers + [NEWBORN], trace)
  {
    forall i: nat | i < |trace| && (trace[i].Started? || trace[i].Took?)
      ensures trace[i].helper < |helpers + [NEWBORN]| && Recalls((helpers + [NEWBORN])[trace[i].helper], trace[i], i)
    {
      assert Recalls(helpers[trace[i].helper], trace[i], i);
    }
  }

  /** Time passes and the phone signs; neither touches rows or writes a launch. */
  lemma WorldKeepsInv(s: System, w: World)
    requires Inv(s) && w.rows == s.world.rows && w.account == s.world.account && s.world.trace <= w.trace
    requires forall i :: |s.world.trace| <= i < |w.trace| ==> w.trace[i].Signed?
    ensures Inv(s.(world := w))
  {
    forall k | 0 <= k < |s.helpers|
      ensures Good(k, s.helpers[k], w)
    {
      assert Good(k, s.helpers[k], s.world);
    }
  }

  lemma {:induction false} RunKeepsInv(s: System, events: seq<SystemEvent>)
    requires Inv(s)
    ensures Inv(R.Run(s, events))
    decreases |events|
  {
    if events != [] {
      StepKeepsInv(s, events[0]);
      RunKeepsInv(R.Step(s, events[0]), events[1..]);
    }
  }

  lemma InitialInv(machine: nat, phoneKey: nat, kdeRoute: bool, account: Text)
    ensures Inv(Initial(machine, phoneKey, kdeRoute, account))
  {
  }

  // ----- rows -----

  lemma RowsEvolve(s: System, e: SystemEvent)
    requires Inv(s)
    ensures Evolves(s.world.rows, R.Step(s, e).world.rows)
  {
    match e {
      case Fork =>
      case PhoneSigns(_) =>
      case Tick(_) =>
      case HelperEvent(k, event) =>
        if k < |s.helpers| {
          if event.Boot? {
            SweepEvolves(s.world.rows);
          } else {
            AdvanceChangesWorld(s, k, event);
          }
        }
    }
  }

  /** In one step a row moves only pending to ready to consumed, or from pending or ready to
      canceled; nothing leaves consumed or canceled, and no row is lost or rewritten. */
  lemma RowLifeCycle(s: System, e: SystemEvent)
    requires Inv(s)
    ensures Evolves(s.world.rows, R.Step(s, e).world.rows)
    ensures AtMostOneOpen(R.Step(s, e).world.rows)
  {
    RowsEvolve(s, e);
    StepKeepsInv(s, e);
  }

  /** A consumed or canceled row is never touched again by any process. */
  lemma {:induction false} TerminalRowsStay(s: System, events: seq<SystemEvent>, id: nat)
    requires Inv(s) && id in s.world.rows && Terminal(s.world.rows[id].status)
    ensures id in R.Run(s, events).world.rows && R.Run(s, events).world.rows[id] == s.world.rows[id]
    decreases |events|
  {
    if events != [] {
      StepKeepsInv(s, events[0]);
      RowLifeCycle(s, events[0]);
      TerminalRowsStay(R.Step(s, events[0]), events[1..], id);
    }
  }

  function LaunchPositions(trace: seq<Note>): set<nat> {
    set i: nat | i < |trace| && trace[i].Started?
  }

  function ConsumedRows(rows: Rows): set<nat> {
    set id | id in rows && rows[id].status.Consumed?
  }

  lemma {:induction false} Pigeonhole(positions: set<nat>, ids: set<nat>, trace: seq<Note>)
    requires forall i :: i in positions ==> i < |trace| && trace[i].Started? && trace[i].launch.requestId in ids
    requires forall i, j :: i in positions && j in positions && i != j ==> trace[i].launch.requestId != trace[j].launch.requestId
    ensures |positions| <= |ids|
    decreases |positions|
  {
    if positions != {} {
      var i :| i in positions;
      var id := trace[i].launch.requestId;
      Pigeonhole(positions - {i}, ids - {id}, trace);
    }
  }

  /** Launches never outnumber consumed rows. */
  lemma LaunchesNeverOutnumberConsumedRows(s: System)
    requires Inv(s)
    ensures |LaunchPositions(s.world.trace)| <= |ConsumedRows(s.world.rows)|
  {
    var trace := s.world.trace;
    forall i | i in LaunchPositions(trace)
      ensures trace[i].launch.requestId in ConsumedRows(s.world.rows)
    {
      assert Good(trace[i].helper, s.helpers[trace[i].helper], s.world);
    }
    forall i, j | i in LaunchPositions(trace) && j in LaunchPositions(trace) && i != j
      ensures trace[i].launch.requestId != trace[j].launch.requestId
    {
      LaunchesShareNothing(s, i, j);
    }
    Pigeonhole(LaunchPositions(trace), ConsumedRows(s.world.rows), trace);
  }

  // ----- launches -----

  /** What stands behind the launch at position `i`: the phone signed the payload of its
      row, that signature was verified, only then did the desktop send the commit for the
      row's desktop request, and the row was consumed before the deadline. */
  predicate Authorized(s: System, i: nat, signed: nat, verified: nat, watched: nat, taken: nat) {
    var trace := s.world.trace;
    && signed < verified < watched < taken < i < |trace|
    && trace[i].Started?
    && var k, l := trace[i].helper, trace[i].launch;
       && k < |s.helpers|
       && l.requestId in s.world.rows
       && var row := s.world.rows[l.requestId];
          && row.status.Consumed?
          && row.payload.requestId == l.requestId
          && row.payload.desktopId == row.desktopId
          && trace[signed] == Signed(row.payload)
          && trace[verified] == Verified(k, signed)
          && trace[watched].Watched? && trace[watched].helper == k && IsCommit(trace[watched].line, Some(row.desktopId))
          && trace[taken].Took? && trace[taken].helper == k && trace[taken].requestId == l.requestId
          && trace[taken].time < s.helpers[k].startedAt + LIFETIME
          && row.payload.execution == Some(Execution(l.argv, l.uid, l.gid, l.cwd, l.environment))
          && l.argv == Argv(row.payload.command)
          && l.uid == 0 && l.gid == 0
  }

  lemma EveryLaunchIsAuthorized(s: System, i: nat) returns (signed: nat, verified: nat, watched: nat, taken: nat)
    requires Inv(s) && i < |s.world.trace| && s.world.trace[i].Started?
    ensures Authorized(s, i, signed, verified, watched, taken)
  {
    var k := s.world.trace[i].helper;
    var h := s.helpers[k];
    assert Good(k, h, s.world);
    signed, verified, watched, taken := h.proof.signature, h.proof.verifiedAt, h.proof.watchedAt, h.proof.takenAt;
  }

  /** Two launches have different helpers, rows, signing events and commit lines. */
  lemma LaunchesShareNothing(s: System, i: nat, j: nat)
    requires Inv(s) && i < |s.world.trace| && j < |s.world.trace| && i != j
    requires s.world.trace[i].Started? && s.world.trace[j].Started?
    ensures var a, b := s.world.trace[i], s.world.trace[j];
            && a.helper != b.helper && a.launch.requestId != b.launch.requestId
            && a.helper < |s.helpers| && b.helper < |s.helpers|
            && s.helpers[a.helper].proof.signature != s.helpers[b.helper].proof.signature
            && s.helpers[a.helper].proof.watchedAt != s.helpers[b.helper].proof.watchedAt
  {
    var a, b := s.world.trace[i].helper, s.world.trace[j].helper;
    assert Good(a, s.helpers[a], s.world) && Good(b, s.helpers[b], s.world);
    assert s.helpers[a].requestId != s.helpers[b].requestId;
  }

  /** The desktop chooses no variable that decides what `/bin/sh` finds: those are the fixed
      ones, and it forwards only the five it may. */
  lemma LaunchEnvironmentIsProtected(s: System, i: nat, v: Variable)
    requires Inv(s) && i < |s.world.trace| && s.world.trace[i].Started?
    ensures var environment, base := s.world.trace[i].launch.environment, Base(s.world.account);
            && (Protected(v) ==> v in environment && environment[v] == base[v])
            && (v in environment && !Protected(v) ==> Forwarded(v) && Plain(environment[v], 512, false))
  {
    var k := s.world.trace[i].helper;
    var h := s.helpers[k];
    assert Good(k, h, s.world);
    assert h.launch == Some(s.world.trace[i].launch);
    EnvironmentIsProtected(s.world.account, h.wish, v);
  }

  lemma EnvironmentIsProtected(account: Text, wish: Wish, v: Variable)
    requires ValidStart(wish)
    ensures var environment, base := Base(account) + wish.environment, Base(account);
            && (Protected(v) ==> v in environment && environment[v] == base[v])
            && (v in environment && !Protected(v) ==> Forwarded(v) && Plain(environment[v], 512, false))
  {
    assert v in wish.environment ==> Forwarded(v);
  }

  // ----- replies and mail -----

  /** Helper `k` has consumed the row of its request. */
  predicate Consumes(s: System, k: nat, i: nat) {
    && i < |s.world.trace| && s.world.trace[i].Took? && s.world.trace[i].helper == k
    && k < |s.helpers| && HasRow(s.helpers[k], s.world.rows, Consumed)
    && s.world.trace[i].requestId == s.helpers[k].requestId.value
  }

  predicate HasConsumed(s: System, k: nat) {
    exists i :: 0 <= i < |s.world.trace| && Consumes(s, k, i)
  }

  lemma CommittedIsConsumed(s: System, k: nat)
    requires Inv(s) && k < |s.helpers|
    ensures s.helpers[k].committed <==> HasConsumed(s, k)
    ensures s.helpers[k].launch.Some? ==> HasConsumed(s, k)
  {
    var h := s.helpers[k];
    assert Good(k, h, s.world);
    if h.committed {
      assert Consumes(s, k, h.proof.takenAt);
    }
  }

  /** One request ends in one way. A receipt and a withdrawal exclude each other; a receipt
      is mailed, and `executed` written, only for a child that exists; a withdrawal is mailed,
      and `canceled` written, only by a helper that has not consumed its row and has started
      nothing; an error says uncertain exactly when the row is consumed. */
  lemma TerminalConsistency(s: System, k: nat)
    requires Inv(s) && k < |s.helpers|
    ensures var h := s.helpers[k];
            && !(ReceiptMail in h.mail && CancelMail in h.mail)
            && (ReceiptMail in h.mail ==> h.launch.Some?)
            && (CancelMail in h.mail ==> h.launch.None? && !HasConsumed(s, k))
            && (h.launch.Some? ==> s.world.trace[h.proof.launchedAt] == Started(k, h.launch.value))
    ensures var h := s.helpers[k];
            forall i :: 0 <= i < |h.out| ==>
                 && (h.out[i].ExecutedReply? ==> h.launch.Some?)
                 && (h.out[i].CanceledReply? ==> h.launch.None? && !HasConsumed(s, k))
                 && (h.out[i].ErrorReply? ==> (h.out[i].uncertain <==> HasConsumed(s, k)))
  {
    var h := s.helpers[k];
    assert Good(k, h, s.world);
    CommittedIsConsumed(s, k);
    forall i | 0 <= i < |h.out|
      ensures True(h.out[i], h.launch.Some?, h.committed, Ended(h.phase), Closed(h.phase))
    {
    }
  }
}
