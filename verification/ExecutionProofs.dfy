/** One execution owner: over every run of the dialog, its helpers, everybody else's
    helpers and the phone. */
module ExecutionProofs {
  import opened Protocol
  import opened TextChecks
  import A = AuthoritySteps
  import R = AuthorityRuns
  import P = AuthorityProofs
  import T = AuthorityTheorems
  import C = ClientSteps
  import Q = ClientProofs
  import D = DialogSteps
  import E = DialogProofs
  import F = DialogRuns
  import opened ExecutionSteps

  /** What a helper knows, it knows from the lines its client wrote. */
  predicate Bound(wish: A.Wish, h: A.Helper, q: C.Process) {
    && (h.desktopId.Some? ==> h.desktopId.value == q.id)
    && (h.watch.Saw? && h.watch.line.Spoken? && h.watch.line.event.CommitEvent? ==> Q.SentCommit(q))
    && (h.payload.Some? || h.phase.Discovering? ==> h.wish == wish)
  }

  predicate Linked(wish: A.Wish, helpers: seq<A.Helper>, mine: seq<nat>, ps: seq<C.Process>) {
    && |mine| <= |ps|
    && (forall p :: 0 <= p < |mine| ==> mine[p] < |helpers| && Bound(wish, helpers[mine[p]], ps[p]))
    && (forall p, q :: 0 <= p < q < |mine| ==> mine[p] < mine[q])
  }

  predicate Acknowledged(c: C.Client) {
    exists i :: 0 <= i < |c.verdicts| && c.verdicts[i].signal.LaunchAcknowledged?
  }

  predicate LastLaunched(helpers: seq<A.Helper>, mine: seq<nat>) {
    |mine| > 0 && mine[|mine| - 1] < |helpers| && helpers[mine[|mine| - 1]].launch.Some?
  }

  /** `Inv` while the client's newest processes have not been adopted yet. */
  ghost predicate Growing(s: Scene) {
    && D.Inv(s.desk)
    && T.Inv(s.auth)
    && Linked(s.wish, s.auth.helpers, s.mine, C.Processes(s.desk.client))
    && (Acknowledged(s.desk.client) ==> LastLaunched(s.auth.helpers, s.mine) && |s.mine| == |C.Processes(s.desk.client)|)
  }

  ghost predicate Inv(s: Scene) {
    Growing(s) && |s.mine| == |C.Processes(s.desk.client)|
  }

  // ----- the desk moves -----

  lemma NewbornIsLinked(wish: A.Wish, helpers: seq<A.Helper>, mine: seq<nat>, ps: seq<C.Process>)
    requires Linked(wish, helpers, mine, ps) && |mine| < |ps|
    ensures Linked(wish, helpers + [A.NEWBORN], mine + [|helpers|], ps)
  {
  }

  lemma ForkIsGrowing(s: Scene)
    requires Growing(s) && |s.mine| < |C.Processes(s.desk.client)|
    ensures Growing(Scene(s.wish, s.desk, R.Step(s.auth, R.Fork), s.mine + [|s.auth.helpers|]))
  {
    T.StepKeepsInv(s.auth, R.Fork);
    NewbornIsLinked(s.wish, s.auth.helpers, s.mine, C.Processes(s.desk.client));
  }

  lemma {:induction false} AdoptKeepsInv(s: Scene)
    requires Growing(s)
    ensures Inv(Adopt(s))
    ensures Adopt(s).wish == s.wish && Adopt(s).desk == s.desk && Adopt(s).auth.world == s.auth.world
    ensures s.mine <= Adopt(s).mine && s.auth.helpers <= Adopt(s).auth.helpers
    decreases |C.Processes(s.desk.client)| - |s.mine|
  {
    if |s.mine| < |C.Processes(s.desk.client)| {
      ForkIsGrowing(s);
      AdoptKeepsInv(Scene(s.wish, s.desk, R.Step(s.auth, R.Fork), s.mine + [|s.auth.helpers|]));
    }
  }

  lemma GrowthKeepsLinks(wish: A.Wish, helpers: seq<A.Helper>, mine: seq<nat>, ps: seq<C.Process>, qs: seq<C.Process>)
    requires Linked(wish, helpers, mine, ps) && Q.Grew(ps, qs)
    ensures Linked(wish, helpers, mine, qs)
  {
    forall p | 0 <= p < |mine|
      ensures Bound(wish, helpers[mine[p]], qs[p])
    {
      if Q.SentCommit(ps[p]) {
        var i :| 0 <= i < |ps[p].sent| && ps[p].sent[i].CommitLine?;
        assert qs[p].sent[i].CommitLine?;
      }
    }
  }

  lemma NewAcknowledgement(c: C.Client, e: C.Event)
    requires C.Inv(c) && !Acknowledged(c) && Acknowledged(C.Step(c, e).client)
    ensures c.process.Some? && c.committed && e.ReplyLine? && e.reply.Reply? && e.reply.event.ExecutedReply?
  {
    var d := C.Step(c, e).client;
    Q.StepContinues(c, e);
    var i :| 0 <= i < |d.verdicts| && d.verdicts[i].signal.LaunchAcknowledged?;
    assert i >= |c.verdicts|;
    if e.Destroy? {
      F.DestroyIsSilent(c);
    } else if !c.state.Destroyed? {
      F.StepLives(c, e);
    }
  }

  lemma {:induction false} InternalNeverAcknowledges(c: C.Client, events: seq<C.Event>)
    requires C.Inv(c) && !Acknowledged(c)
    requires forall i :: 0 <= i < |events| ==> D.Internal(events[i])
    ensures !Acknowledged(C.Run(c, events))
    decreases |events|
  {
    if events != [] {
      var d := C.Step(c, events[0]).client;
      Q.StepKeepsInv(c, events[0]);
      if Acknowledged(d) {
        NewAcknowledgement(c, events[0]);
      } else {
        InternalNeverAcknowledges(d, events[1..]);
      }
    }
  }

  /** Over the run that one event of the dialog causes, an acknowledgement is new only if
      that event is the helper's `executed`. */
  lemma RunAcknowledges(c: C.Client, events: seq<C.Event>)
    requires C.Inv(c) && !Acknowledged(c) && Acknowledged(C.Run(c, events))
    requires forall i :: 0 < i < |events| ==> D.Internal(events[i])
    ensures |events| > 0 && events[0].ReplyLine? && events[0].reply.Reply? && events[0].reply.event.ExecutedReply?
    ensures c.process.Some? && c.committed
  {
    var d := C.Step(c, events[0]).client;
    Q.StepKeepsInv(c, events[0]);
    if !Acknowledged(d) {
      InternalNeverAcknowledges(d, events[1..]);
    } else {
      NewAcknowledgement(c, events[0]);
    }
  }

  lemma ExecutedMeansLaunched(k: nat, h: A.Helper, w: A.World, reply: Reply)
    requires T.Good(k, h, w) && MayHear(h, reply) && reply.Reply? && reply.event.ExecutedReply?
    ensures h.launch.Some?
  {
    var i :| 0 <= i < |h.out| && h.out[i] == reply.event;
    assert R.True(h.out[i], h.launch.Some?, h.committed, R.Ended(h.phase), R.Closed(h.phase));
  }

  lemma AcknowledgedIsCommitted(c: C.Client)
    requires C.Inv(c) && Acknowledged(c)
    ensures c.committed
  {
    var i :| 0 <= i < |c.verdicts| && c.verdicts[i].signal.LaunchAcknowledged?;
    assert !C.Soft(c.verdicts[i].signal);
  }

  /** What the dialog makes its client do, as a run. */
  lemma DeskContinues(k: D.Desk, e: D.Event)
    requires D.Inv(k)
    ensures D.Inv(D.Step(k, e)) && Q.Continues(k.client, D.Step(k, e).client)
  {
    E.StepKeepsInv(k, e);
    var events := F.StepDrives(k, e);
    Q.RunContinues(k.client, events);
  }

  lemma DeskAcknowledges(k: D.Desk, e: D.Event)
    requires D.Inv(k) && !Acknowledged(k.client) && Acknowledged(D.Step(k, e).client)
    ensures e.ClientEvent? && e.event.ReplyLine? && e.event.reply.Reply? && e.event.reply.event.ExecutedReply?
    ensures k.client.process.Some? && k.client.committed
  {
    var events := F.StepDrives(k, e);
    RunAcknowledges(k.client, events);
  }

  /** An acknowledgement, old or new, comes from the last helper, which has launched. */
  lemma AcknowledgedHasLaunched(s: Scene, e: D.Event)
    requires Inv(s) && MayBeHeard(s, e) && Acknowledged(D.Step(s.desk, e).client)
    ensures LastLaunched(s.auth.helpers, s.mine) && s.desk.client.committed
  {
    if Acknowledged(s.desk.client) {
      AcknowledgedIsCommitted(s.desk.client);
    } else {
      DeskAcknowledges(s.desk, e);
      var k := s.mine[|s.mine| - 1];
      assert T.Good(k, s.auth.helpers[k], s.auth.world);
      ExecutedMeansLaunched(k, s.auth.helpers[k], s.auth.world, e.event.reply);
    }
  }

  lemma DeskKeepsInv(s: Scene, e: D.Event)
    requires Inv(s) && MayBeHeard(s, e)
    ensures Growing(s.(desk := D.Step(s.desk, e)))
  {
    var d := D.Step(s.desk, e).client;
    DeskContinues(s.desk, e);
    GrowthKeepsLinks(s.wish, s.auth.helpers, s.mine, C.Processes(s.desk.client), C.Processes(d));
    if Acknowledged(d) {
      AcknowledgedHasLaunched(s, e);
    }
  }

  // ----- the authority moves -----

  /** Only the two reads tell a helper anything. */
  predicate Deaf(h: A.Helper, g: A.Helper) {
    && g.desktopId == h.desktopId
    && g.wish == h.wish
    && (g.watch == h.watch || g.watch.Lost?)
    && (g.payload.Some? || g.phase.Discovering? ==> h.payload.Some? || h.phase.Discovering?)
  }

  lemma StepIsDeaf(k: nat, h: A.Helper, w: A.World, e: A.Event)
    requires R.Phased(h) && !e.StartRead? && !e.WatcherRead?
    ensures Deaf(h, A.Step(k, h, w, e).helper)
  {
    if P.ChangesWorld(e) {
      P.LoudKeepsWish(k, h, w, e);
    } else {
      P.QuietStep(k, h, w, e);
    }
  }

  lemma StartKeepsBound(wish: A.Wish, h: A.Helper, w: A.World, line: A.DesktopLine, q: C.Process)
    requires Bound(wish, h, q) && C.InLanguage(q) && h.phase.AwaitStart?
    requires line.Unreadable? || (|q.sent| > 0 && line == Arrives(wish, q.sent[0]))
    ensures Bound(wish, A.ReadStart(h, w, line), q)
  {
    assert line.Spoken? ==> line.id == q.id && line.event == A.WishEvent(wish);
  }

  lemma ReadKeepsBound(wish: A.Wish, k: nat, h: A.Helper, w: A.World, e: A.Event, q: C.Process)
    requires R.Phased(h) && Bound(wish, h, q) && C.InLanguage(q) && MayRead(wish, q.sent, e)
    ensures Bound(wish, A.Step(k, h, w, e).helper, q)
  {
    if e.StartRead? {
      if h.phase.AwaitStart? {
        StartKeepsBound(wish, h, w, e.line, q);
      }
    } else if e.WatcherRead? {
      WatchKeepsBound(wish, k, h, w, e.line, q);
    } else {
      StepIsDeaf(k, h, w, e);
    }
  }

  lemma HeardKeepsBound(wish: A.Wish, h: A.Helper, line: A.DesktopLine, proof: A.Proof, q: C.Process)
    requires Bound(wish, h, q)
    requires line.Unreadable? || (|q.sent| > 1 && line == Arrives(wish, q.sent[1]))
    ensures Bound(wish, h.(watch := A.Saw(line), proof := proof), q)
  {
    if line.Spoken? && line.event.CommitEvent? {
      assert q.sent[1].CommitLine?;
    }
  }

  lemma WatchKeepsBound(wish: A.Wish, k: nat, h: A.Helper, w: A.World, line: A.DesktopLine, q: C.Process)
    requires Bound(wish, h, q) && MayRead(wish, q.sent, A.WatcherRead(line))
    ensures Bound(wish, A.Step(k, h, w, A.WatcherRead(line)).helper, q)
  {
    HeardKeepsBound(wish, h, line, h.proof.(watchedAt := |w.trace|), q);
  }

  /** The three ways one event can move a helper. */
  predicate Moves(auth: R.System, e: R.SystemEvent, k: nat, g: A.Helper)
    requires k < |auth.helpers|
  {
    var h := auth.helpers[k];
    || g == h
    || (h.phase.Booting? && (g == h.(phase := A.AwaitStart) || g == h.(phase := A.Gone)))
    || (e.HelperEvent? && e.k == k && !e.event.Boot? && g == A.Step(k, h, auth.world, e.event).helper)
  }

  lemma StepMoves(auth: R.System, e: R.SystemEvent, k: nat)
    requires k < |auth.helpers|
    ensures k < |R.Step(auth, e).helpers| && Moves(auth, e, k, R.Step(auth, e).helpers[k])
  {
  }

  lemma LaunchStays(auth: R.System, e: R.SystemEvent, k: nat)
    requires T.Inv(auth) && k < |auth.helpers|
    ensures k < |R.Step(auth, e).helpers|
    ensures auth.helpers[k].launch.Some? ==> R.Step(auth, e).helpers[k].launch == auth.helpers[k].launch
  {
    StepMoves(auth, e, k);
    if e.HelperEvent? && e.k == k && !e.event.Boot? {
      T.NotesOf(auth, k, e.event);
    }
  }

  lemma MoveKeepsBound(wish: A.Wish, auth: R.System, e: R.SystemEvent, k: nat, g: A.Helper, q: C.Process)
    requires k < |auth.helpers| && R.Phased(auth.helpers[k]) && Bound(wish, auth.helpers[k], q) && C.InLanguage(q)
    requires e.HelperEvent? && e.k == k ==> MayRead(wish, q.sent, e.event)
    requires Moves(auth, e, k, g)
    ensures Bound(wish, g, q)
  {
    if e.HelperEvent? && e.k == k && !e.event.Boot? {
      ReadKeepsBound(wish, k, auth.helpers[k], auth.world, e.event, q);
    }
  }

  lemma AuthorityKeepsBound(s: Scene, e: R.SystemEvent, p: nat)
    requires Inv(s) && MayHappen(s, e) && p < |s.mine|
    ensures s.mine[p] < |R.Step(s.auth, e).helpers|
    ensures Bound(s.wish, R.Step(s.auth, e).helpers[s.mine[p]], C.Processes(s.desk.client)[p])
  {
    var k := s.mine[p];
    T.PhasedOf(s.auth, k);
    Q.ProcessesAreInLanguage(s.desk.client, p);
    StepMoves(s.auth, e, k);
    MoveKeepsBound(s.wish, s.auth, e, k, R.Step(s.auth, e).helpers[k], C.Processes(s.desk.client)[p]);
  }

  lemma AuthorityKeepsLinks(s: Scene, e: R.SystemEvent)
    requires Inv(s) && MayHappen(s, e)
    ensures Linked(s.wish, R.Step(s.auth, e).helpers, s.mine, C.Processes(s.desk.client))
  {
    forall p | 0 <= p < |s.mine|
      ensures s.mine[p] < |R.Step(s.auth, e).helpers|
      ensures Bound(s.wish, R.Step(s.auth, e).helpers[s.mine[p]], C.Processes(s.desk.client)[p])
    {
      AuthorityKeepsBound(s, e, p);
    }
  }

  lemma AuthorityKeepsLastLaunch(s: Scene, e: R.SystemEvent)
    requires T.Inv(s.auth) && LastLaunched(s.auth.helpers, s.mine)
    ensures LastLaunched(R.Step(s.auth, e).helpers, s.mine)
  {
    LaunchStays(s.auth, e, s.mine[|s.mine| - 1]);
  }

  lemma AuthorityKeepsInv(s: Scene, e: R.SystemEvent)
    requires Inv(s) && MayHappen(s, e)
    ensures Inv(s.(auth := R.Step(s.auth, e)))
  {
    T.StepKeepsInv(s.auth, e);
    AuthorityKeepsLinks(s, e);
    if Acknowledged(s.desk.client) {
      AuthorityKeepsLastLaunch(s, e);
    }
  }

  lemma StepKeepsInv(s: Scene, e: Event)
    requires Inv(s)
    ensures Inv(Step(s, e))
  {
    match e {
      case AtDesk(event) =>
        if MayBeHeard(s, event) {
          DeskKeepsInv(s, event);
          AdoptKeepsInv(s.(desk := D.Step(s.desk, event)));
        }
      case AtAuthority(event) => if MayHappen(s, event) { AuthorityKeepsInv(s, event); }
    }
  }

  lemma {:induction false} RunKeepsInv(s: Scene, events: seq<Event>)
    requires Inv(s)
    ensures Inv(Run(s, events))
    decreases |events|
  {
    if events != [] {
      StepKeepsInv(s, events[0]);
      RunKeepsInv(Step(s, events[0]), events[1..]);
    }
  }

  lemma DeskStartsWell()
    ensures D.Inv(D.INITIAL) && C.Processes(D.INITIAL.client) == [] && !Acknowledged(D.INITIAL.client)
  {
  }

  lemma InitialInv(wish: A.Wish, machine: nat, phoneKey: nat, kdeRoute: bool, account: Text)
    ensures Inv(Initial(wish, machine, phoneKey, kdeRoute, account))
  {
    T.InitialInv(machine, phoneKey, kdeRoute, account);
    DeskStartsWell();
  }

  // ----- one execution owner -----

  /** The launches of this dialog's helpers. */
  function OwnLaunches(s: Scene): set<nat> {
    set i: nat | i < |s.auth.world.trace| && s.auth.world.trace[i].Started? && s.auth.world.trace[i].helper in s.mine
  }

  /** The command was also handed to the password or to the user's own account. */
  predicate OwnedHere(s: Scene) {
    s.desk.dialog.outcome == Some(D.Accepted) || s.desk.dialog.outcome == Some(D.AsUser)
  }

  /** A launch by one of this dialog's helpers comes from the client's commit, to its last
      and only committed helper. */
  lemma LaunchComesFromCommit(s: Scene, i: nat)
    requires Inv(s) && i in OwnLaunches(s)
    ensures s.desk.client.committed && |s.mine| > 0
    ensures s.auth.world.trace[i].helper == s.mine[|s.mine| - 1]
    ensures Q.SentCommit(C.Processes(s.desk.client)[|s.mine| - 1])
  {
    var k := s.auth.world.trace[i].helper;
    var p :| 0 <= p < |s.mine| && s.mine[p] == k;
    assert T.Good(k, s.auth.helpers[k], s.auth.world);
    assert Bound(s.wish, s.auth.helpers[k], C.Processes(s.desk.client)[p]);
    Q.OnlyLastHelperMayCommit(s.desk.client, p);
  }

  lemma LaunchIsUnique(s: Scene, i: nat, j: nat)
    requires Inv(s) && i in OwnLaunches(s) && j in OwnLaunches(s)
    ensures i == j
  {
    LaunchComesFromCommit(s, i);
    LaunchComesFromCommit(s, j);
    if i != j {
      T.LaunchesShareNothing(s.auth, i, j);
    }
  }

  lemma AtMostOne(positions: set<nat>)
    requires forall i, j :: i in positions && j in positions ==> i == j
    ensures |positions| <= 1
  {
    if positions != {} {
      var i :| i in positions;
      assert positions == {i};
    }
  }

  /** In every run, with Retry, old helpers still alive, other dialogs, crashes, lost,
      late and repeated lines, at most one of these ever happens, at most once: a launch as
      root by phone, an accepted password, or a run as the user. */
  lemma OneExecutionOwner(s: Scene, events: seq<Event>)
    requires Inv(s)
    ensures var t := Run(s, events); |OwnLaunches(t)| + (if OwnedHere(t) then 1 else 0) <= 1
  {
    RunKeepsInv(s, events);
    var t := Run(s, events);
    forall i, j | i in OwnLaunches(t) && j in OwnLaunches(t)
      ensures i == j
    {
      LaunchIsUnique(t, i, j);
    }
    AtMostOne(OwnLaunches(t));
    if i :| i in OwnLaunches(t) {
      LaunchComesFromCommit(t, i);
    }
  }

  lemma LaunchesGrow(s: Scene, t: Scene)
    requires s.auth.world.trace <= t.auth.world.trace && s.mine <= t.mine
    ensures OwnLaunches(s) <= OwnLaunches(t)
  {
  }

  /** What has happened stays: launches and the dialog's outcome. */
  lemma {:induction false} OwnersStay(s: Scene, events: seq<Event>)
    requires Inv(s)
    ensures OwnLaunches(s) <= OwnLaunches(Run(s, events))
    ensures OwnedHere(s) ==> OwnedHere(Run(s, events))
    decreases |events|
  {
    if events != [] {
      var t := Step(s, events[0]);
      StepKeepsInv(s, events[0]);
      StepGrows(s, events[0]);
      LaunchesGrow(s, t);
      OwnersStay(t, events[1..]);
    }
  }

  lemma StepGrows(s: Scene, e: Event)
    requires Inv(s)
    ensures s.auth.world.trace <= Step(s, e).auth.world.trace
    ensures s.mine <= Step(s, e).mine
    ensures s.desk.dialog.outcome.Some? ==> Step(s, e).desk.dialog.outcome == s.desk.dialog.outcome
    ensures Q.Continues(s.desk.client, Step(s, e).desk.client)
  {
    Q.RunContinues(s.desk.client, []);
    match e {
      case AtDesk(event) => if MayBeHeard(s, event) { DeskGrows(s, event); }
      case AtAuthority(event) => if MayHappen(s, event) { TraceGrows(s.auth, event); }
    }
  }

  lemma DeskGrows(s: Scene, e: D.Event)
    requires Inv(s) && MayBeHeard(s, e)
    ensures var t := Step(s, AtDesk(e));
            && t.auth.world == s.auth.world && s.mine <= t.mine
            && (s.desk.dialog.outcome.Some? ==> t.desk.dialog.outcome == s.desk.dialog.outcome)
            && Q.Continues(s.desk.client, t.desk.client)
  {
    DeskContinues(s.desk, e);
    DeskKeepsInv(s, e);
    AdoptKeepsInv(s.(desk := D.Step(s.desk, e)));
    if s.desk.dialog.outcome.Some? {
      F.OutcomeStays(s.desk, e);
    }
  }

  lemma TraceGrows(auth: R.System, e: R.SystemEvent)
    requires T.Inv(auth)
    ensures auth.world.trace <= R.Step(auth, e).world.trace
  {
    if e.HelperEvent? && e.k < |auth.helpers| && !e.event.Boot? {
      T.NotesOf(auth, e.k, e.event);
    }
  }

  /** Nothing on the computer adds a signature of the phone to the trace. */
  lemma OnlyThePhoneSigns(s: Scene, e: Event)
    requires Inv(s) && !(e.AtAuthority? && e.auth.PhoneSigns?)
    ensures s.auth.world.trace <= Step(s, e).auth.world.trace
    ensures forall i: nat :: |s.auth.world.trace| <= i < |Step(s, e).auth.world.trace| ==> !Step(s, e).auth.world.trace[i].Signed?
  {
    match e {
      case AtDesk(event) => if MayBeHeard(s, event) { DeskGrows(s, event); }
      case AtAuthority(event) => AuthorityForgesNothing(s.auth, event);
    }
  }

  lemma AuthorityForgesNothing(auth: R.System, e: R.SystemEvent)
    requires T.Inv(auth) && !e.PhoneSigns?
    ensures auth.world.trace <= R.Step(auth, e).world.trace
    ensures forall i: nat :: |auth.world.trace| <= i < |R.Step(auth, e).world.trace| ==> !R.Step(auth, e).world.trace[i].Signed?
  {
    if e.HelperEvent? && e.k < |auth.helpers| && !e.event.Boot? {
      T.NotesOf(auth, e.k, e.event);
    }
  }

  // ----- truthful verdicts -----

  /** Once an attempt has been reported canceled or unavailable, its helper never launches,
      not even long after the dialog has let go of it. */
  lemma {:induction false} SoftVerdictsAreTrue(s: Scene, events: seq<Event>, i: nat, p: nat, n: nat)
    requires Inv(s) && i < |s.desk.client.verdicts| && C.Soft(s.desk.client.verdicts[i].signal)
    requires var t := Run(s, events);
             p < |t.mine| && p < |C.Processes(t.desk.client)| && C.Processes(t.desk.client)[p].id == s.desk.client.verdicts[i].id
    requires n in OwnLaunches(Run(s, events))
    ensures Run(s, events).auth.world.trace[n].helper != Run(s, events).mine[p]
    decreases |events|
  {
    if events == [] {
      LaunchComesFromCommit(s, n);
      Q.OnlyLastHelperMayCommit(s.desk.client, |s.mine| - 1);
    } else {
      StepKeepsInv(s, events[0]);
      StepGrows(s, events[0]);
      SoftVerdictsAreTrue(Step(s, events[0]), events[1..], i, p, n);
    }
  }

  /** When the dialog ends because the phone ran the command, the phone's helper has
      launched it. */
  lemma PhoneExecutedMeansLaunched(s: Scene) returns (n: nat)
    requires Inv(s) && s.desk.dialog.outcome == Some(D.PhoneExecuted)
    ensures n in OwnLaunches(s) && OwnLaunches(s) == {n}
  {
    var c := s.desk.client;
    assert c.verdicts[|c.verdicts| - 1].signal.LaunchAcknowledged?;
    var k := s.mine[|s.mine| - 1];
    assert T.Good(k, s.auth.helpers[k], s.auth.world);
    n := s.auth.helpers[k].proof.launchedAt;
    assert n in OwnLaunches(s);
    forall i | i in OwnLaunches(s) ensures i == n {
      LaunchIsUnique(s, i, n);
    }
  }

  // ----- what was asked is what runs -----

  /** A launch by this dialog runs the dialog's own command, the one in the payload the
      phone signed, for the attempt that the client committed. */
  lemma OwnLaunchRunsTheWish(s: Scene, n: nat) returns (signed: nat)
    requires Inv(s) && n in OwnLaunches(s)
    ensures signed < n && s.auth.world.trace[signed].Signed?
    ensures var p, l := s.auth.world.trace[signed].payload, s.auth.world.trace[n].launch;
            && l.argv == Argv(s.wish.command)
            && p.command == s.wish.command
            && p.application == s.wish.application
            && p.desktopId == s.desk.client.requestId
            && p.execution == Some(Execution(l.argv, 0, 0, l.cwd, l.environment))
            && l.environment == A.Base(s.auth.world.account) + s.wish.environment
  {
    var k := s.auth.world.trace[n].helper;
    LaunchComesFromCommit(s, n);
    var h := s.auth.helpers[k];
    assert T.Good(k, h, s.auth.world);
    assert Bound(s.wish, h, C.Processes(s.desk.client)[|s.mine| - 1]);
    Q.OnlyLastHelperMayCommit(s.desk.client, |s.mine| - 1);
    signed := h.proof.signature;
  }
}
