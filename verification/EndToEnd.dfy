/** From the fingerprint to the process, and back to the button: the dialog, its pipes, all
    helpers and the phone in one run. The phone's key is in that phone, so a signature comes
    into being exactly when the phone uses its key. */
module EndToEnd {
  import opened Protocol
  import opened TextChecks
  import A = AuthoritySteps
  import R = AuthorityRuns
  import T = AuthorityTheorems
  import M = MailboxSteps
  import S = ExecutionSteps
  import X = ExecutionProofs
  import V = ActivitySteps
  import B = BackStackSteps
  import P = BackStackProofs

  /** `stack` is the phone: its mailbox, its key and the instances of its app. */
  datatype Whole = Whole(scene: S.Scene, stack: B.Stack)

  datatype Event = AtComputer(computer: S.Event) | AtPhone(phone: B.Event)

  function Initial(wish: A.Wish, machine: nat, phoneKey: nat, kdeRoute: bool, account: Text, m: M.Mailbox): Whole {
    Whole(S.Initial(wish, machine, phoneKey, kdeRoute, account), B.Initial(m))
  }

  /** The world learns of a new use of the key. */
  function Publish(scene: S.Scene, log: seq<V.Signing>, log': seq<V.Signing>): S.Scene {
    if |log'| > |log| then scene.(auth := R.Step(scene.auth, R.PhoneSigns(log'[|log|].payload))) else scene
  }

  predicate Forges(e: S.Event) {
    e.AtAuthority? && e.auth.PhoneSigns?
  }

  function Step(w: Whole, e: Event): Whole {
    match e
    case AtComputer(event) => if Forges(event) then w else w.(scene := S.Step(w.scene, event))
    case AtPhone(event) =>
      var t := B.Step(w.stack, event);
      Whole(Publish(w.scene, w.stack.phone.log, t.phone.log), t)
  }

  function Run(w: Whole, events: seq<Event>): Whole
    decreases |events|
  {
    if events == [] then w else Run(Step(w, events[0]), events[1..])
  }

  predicate SignedBy(log: seq<V.Signing>, payload: Payload) {
    exists n :: 0 <= n < |log| && log[n].payload == payload
  }

  /** Every signing event in the authority's trace is a use of this phone's key. */
  predicate SignedHere(trace: seq<A.Note>, log: seq<V.Signing>) {
    forall i :: 0 <= i < |trace| && trace[i].Signed? ==> SignedBy(log, trace[i].payload)
  }

  ghost predicate Inv(w: Whole) {
    X.Inv(w.scene) && P.Sound(w.stack) && SignedHere(w.scene.auth.world.trace, w.stack.phone.log)
  }

  // ----- the invariant -----

  lemma OtherNotesKeep(trace: seq<A.Note>, trace': seq<A.Note>, log: seq<V.Signing>)
    requires SignedHere(trace, log) && trace <= trace'
    requires forall i: nat :: |trace| <= i < |trace'| ==> !trace'[i].Signed?
    ensures SignedHere(trace', log)
  {
  }

  lemma NewSigningKeeps(trace: seq<A.Note>, log: seq<V.Signing>, log': seq<V.Signing>)
    requires SignedHere(trace, log) && log <= log'
    ensures SignedHere(trace, log')
    ensures |log'| > |log| ==> SignedHere(trace + [A.Signed(log'[|log|].payload)], log')
  {
    forall i | 0 <= i < |trace| && trace[i].Signed?
      ensures SignedBy(log', trace[i].payload)
    {
      var n :| 0 <= n < |log| && log[n].payload == trace[i].payload;
      assert log'[n] == log[n];
    }
    assert |log'| > |log| ==> SignedBy(log', log'[|log|].payload);
  }

  lemma ComputerKeepsInv(w: Whole, e: S.Event)
    requires Inv(w) && !Forges(e)
    ensures Inv(w.(scene := S.Step(w.scene, e)))
  {
    X.StepKeepsInv(w.scene, e);
    X.OnlyThePhoneSigns(w.scene, e);
    OtherNotesKeep(w.scene.auth.world.trace, S.Step(w.scene, e).auth.world.trace, w.stack.phone.log);
  }

  lemma PublishKeepsInv(scene: S.Scene, log: seq<V.Signing>, log': seq<V.Signing>)
    requires X.Inv(scene) && SignedHere(scene.auth.world.trace, log) && log <= log'
    ensures X.Inv(Publish(scene, log, log'))
    ensures SignedHere(Publish(scene, log, log').auth.world.trace, log')
  {
    NewSigningKeeps(scene.auth.world.trace, log, log');
    if |log'| > |log| {
      X.AuthorityKeepsInv(scene, R.PhoneSigns(log'[|log|].payload));
    }
  }

  lemma StepKeepsInv(w: Whole, e: Event)
    requires Inv(w)
    ensures Inv(Step(w, e))
  {
    match e {
      case AtComputer(event) => if !Forges(event) { ComputerKeepsInv(w, event); }
      case AtPhone(event) =>
        P.StepKeepsSound(w.stack, event);
        PublishKeepsInv(w.scene, w.stack.phone.log, B.Step(w.stack, event).phone.log);
    }
  }

  lemma {:induction false} RunKeepsInv(w: Whole, events: seq<Event>)
    requires Inv(w)
    ensures Inv(Run(w, events))
    decreases |events|
  {
    if events != [] {
      StepKeepsInv(w, events[0]);
      RunKeepsInv(Step(w, events[0]), events[1..]);
    }
  }

  lemma InitialInv(wish: A.Wish, machine: nat, phoneKey: nat, kdeRoute: bool, account: Text, m: M.Mailbox)
    ensures Inv(Initial(wish, machine, phoneKey, kdeRoute, account, m))
  {
    X.InitialInv(wish, machine, phoneKey, kdeRoute, account);
    P.InitialInv(m);
  }

  // ----- what was shown is what runs -----

  /** A use of the phone's key on the request that a launch carries out: the command on the
      prompt whose fingerprint it was is the command line of the process. */
  predicate Permits(use: V.Signing, l: A.Launch) {
    && use.payload.requestId == l.requestId
    && use.payload.execution == Some(Execution(l.argv, 0, 0, l.cwd, l.environment))
    && l.argv == Argv(use.shown)
    && use.time < use.payload.expires
  }

  /** Before the launch at `i` its desktop sent the commit, and before that the phone signed. */
  predicate Confirmed(trace: seq<A.Note>, i: nat, payload: Payload, signed: nat, watched: nat) {
    && signed < watched < i < |trace| && trace[i].Started?
    && trace[signed] == A.Signed(payload)
    && trace[watched].Watched? && trace[watched].helper == trace[i].helper
    && A.IsCommit(trace[watched].line, Some(payload.desktopId))
  }

  /** The phone's signing event behind a launch: on the payload in the launch's own row, and
      before the desktop's commit. */
  ghost predicate Backs(w: Whole, i: nat, n: nat) {
    var trace, log, rows := w.scene.auth.world.trace, w.stack.phone.log, w.scene.auth.world.rows;
    && i < |trace| && trace[i].Started?
    && n < |log| && Permits(log[n], trace[i].launch)
    && trace[i].launch.requestId in rows && rows[trace[i].launch.requestId].payload == log[n].payload
    && exists signed: nat, watched: nat :: Confirmed(trace, i, log[n].payload, signed, watched)
  }

  /** Every launch, of this dialog or any other, is backed, no two by the same use of the
      key; behind a launch of this dialog the prompt showed the dialog's command. */
  ghost predicate Authorized(w: Whole) {
    && (forall i: nat :: i < |w.scene.auth.world.trace| && w.scene.auth.world.trace[i].Started? ==> exists n: nat :: Backs(w, i, n))
    && (forall i: nat, j: nat, n: nat :: Backs(w, i, n) && Backs(w, j, n) ==> i == j)
    && (forall i: nat, n: nat :: Backs(w, i, n) && i in X.OwnLaunches(w.scene) ==> w.stack.phone.log[n].shown == w.scene.wish.command)
  }

  lemma LaunchWasShownAndSigned(w: Whole, i: nat) returns (n: nat)
    requires Inv(w) && i < |w.scene.auth.world.trace| && w.scene.auth.world.trace[i].Started?
    ensures Backs(w, i, n)
  {
    var signed, verified, watched, taken := T.EveryLaunchIsAuthorized(w.scene.auth, i);
    var payload := w.scene.auth.world.trace[signed].payload;
    assert SignedBy(w.stack.phone.log, payload);
    n :| 0 <= n < |w.stack.phone.log| && w.stack.phone.log[n].payload == payload;
    assert Confirmed(w.scene.auth.world.trace, i, payload, signed, watched);
  }

  lemma SigningBacksOneLaunch(w: Whole, i: nat, j: nat, n: nat)
    requires Inv(w) && Backs(w, i, n) && Backs(w, j, n)
    ensures i == j
  {
    if i != j {
      T.LaunchesShareNothing(w.scene.auth, i, j);
    }
  }

  /** What the dialog asked for, what the prompt showed and what runs are the same command. */
  lemma AskedShownAndRun(w: Whole, i: nat, n: nat)
    requires Inv(w) && i in X.OwnLaunches(w.scene) && Backs(w, i, n)
    ensures w.stack.phone.log[n].shown == w.scene.wish.command
    ensures w.scene.auth.world.trace[i].launch.argv == Argv(w.scene.wish.command)
  {
    var signed := X.OwnLaunchRunsTheWish(w.scene, i);
    ArgvIsInjective(w.stack.phone.log[n].shown, w.scene.wish.command);
  }

  lemma ArgvIsInjective(a: Text, b: Text)
    requires Argv(a) == Argv(b)
    ensures a == b
  {
    assert Argv(a)[2] == Argv(b)[2];
  }

  lemma InvIsAuthorized(w: Whole)
    requires Inv(w)
    ensures Authorized(w)
  {
    forall i: nat | i < |w.scene.auth.world.trace| && w.scene.auth.world.trace[i].Started?
      ensures exists n: nat :: Backs(w, i, n)
    {
      var n := LaunchWasShownAndSigned(w, i);
    }
    forall i: nat, j: nat, n: nat | Backs(w, i, n) && Backs(w, j, n)
      ensures i == j
    {
      SigningBacksOneLaunch(w, i, j, n);
    }
    forall i: nat, n: nat | Backs(w, i, n) && i in X.OwnLaunches(w.scene)
      ensures w.stack.phone.log[n].shown == w.scene.wish.command
    {
      AskedShownAndRun(w, i, n);
    }
  }

  /** Over every run, root runs nothing but what the phone's prompt showed when the key
      was used, and only once for each use. */
  lemma EveryRunIsAuthorized(w: Whole, events: seq<Event>)
    requires Inv(w)
    ensures Authorized(Run(w, events))
  {
    RunKeepsInv(w, events);
    InvIsAuthorized(Run(w, events));
  }
}
