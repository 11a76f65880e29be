/** The model is not empty: a dialog whose first helper fails is retried, the phone signs,
    and the run ends with the command started by the second helper and the dialog told so. */
module Walkthrough {
  import opened Protocol
  import opened TextChecks
  import A = AuthoritySteps
  import R = AuthorityRuns
  import C = ClientSteps
  import D = DialogSteps
  import S = ExecutionSteps
  import X = ExecutionProofs

  const ACCOUNT: Text := [0x75]

  const WISH := A.Wish([0x41], [0x69, 0x64], map[], true)

  const FLUSHED := A.Output(true, true, false)

  const HERE := Directory([0x2f], 1, 2)

  /** What the desktop asks and the phone signs, at time 0. */
  function Asked(): Payload {
    Payload(1, 2, 7, true, 1, WISH.application, WISH.command, 0, A.LIFETIME, true,
            Some(Execution(Argv(WISH.command), 0, 0, HERE, A.Base(ACCOUNT) + WISH.environment)))
  }

  const START := S.Initial(WISH, 1, 2, true, ACCOUNT)

  // ----- the desk -----

  /** The dialog has shown itself and its client has started a helper. */
  function Shown(): D.Desk {
    D.Desk(D.INITIAL.dialog.(notificationStarted := true), C.Launch(C.INITIAL))
  }

  /** That helper has exited. */
  function Failed(): D.Desk {
    Shown().(client := C.INITIAL.(state := C.Finished, released := [C.Process(0, C.NotRunning, false, [])],
                                  verdicts := [C.Verdict(0, C.PhoneUnavailable)]))
  }

  function Retried(): D.Desk {
    Failed().(client := C.Launch(Failed().client.(state := C.Idle, requestId := 1)))
  }

  function Waiting(): D.Desk {
    Retried().(client := C.SendStart(Retried().client))
  }

  function Committed(): D.Desk {
    D.Desk(Waiting().dialog.(phoneCommitted := true), C.SendCommit(Waiting().client.(ready := true)))
  }

  function Ended(): D.Desk {
    D.Desk(D.Done(Committed().dialog, D.PhoneExecuted), C.Finish(C.Judge(Committed().client, C.LaunchAcknowledged)))
  }

  lemma DeskFails()
    ensures D.Step(D.INITIAL, D.Show(true, true)) == Shown()
    ensures D.Step(Shown(), D.ClientEvent(C.ProcessExited)) == Failed()
  {
  }

  lemma DeskRetries()
    ensures D.Step(Failed(), D.ClickRetry(true, true)) == Retried()
    ensures D.Step(Retried(), D.ClientEvent(C.ProcessStarted)) == Waiting()
  {
  }

  /** Nothing but the phone has a claim on the execution. */
  predicate Free(d: D.Dialog) {
    d.outcome.None? && !d.cancelled && !d.authenticating && d.fallback.NoFallback?
  }

  lemma ReadyCommits(k: D.Desk)
    requires Free(k.dialog) && k.client.state.Waiting? && !k.client.ready && k.client.process.Some? && k.client.process.value.writable
    ensures D.Step(k, D.ClientEvent(C.ReplyLine(Reply(k.client.requestId, ReadyReply))))
         == D.Desk(k.dialog.(phoneCommitted := true), C.SendCommit(k.client.(ready := true)))
  {
  }

  lemma ExecutedEnds(k: D.Desk, pid: real)
    requires Free(k.dialog) && k.dialog.phoneCommitted && C.ValidPid(pid) && k.client.state.Committed? && k.client.process.Some?
    ensures D.Step(k, D.ClientEvent(C.ReplyLine(Reply(k.client.requestId, ExecutedReply(Some(pid))))))
         == D.Desk(D.Done(k.dialog, D.PhoneExecuted), C.Finish(C.Judge(k.client, C.LaunchAcknowledged)))
  {
  }

  // ----- the second helper -----

  /** `start` has been read. */
  function Discovering(): A.Helper {
    A.NEWBORN.(phase := A.Discovering, desktopId := Some(1), wish := WISH, environment := A.Base(ACCOUNT) + WISH.environment)
  }

  function Delivering(): A.Helper {
    Discovering().(phase := A.Delivering, directory := Some(HERE), requestId := Some(7), payload := Some(Asked()))
  }

  function Approving(): A.Helper {
    Delivering().(phase := A.Approving)
  }

  function Announcing(): A.Helper {
    Approving().(phase := A.Announcing, proof := A.Proof(0, 1, 0, 0, 0))
  }

  function AwaitingCommit(): A.Helper {
    Announcing().(phase := A.AwaitCommit, out := [ReadyReply])
  }

  function Answered(): A.Helper {
    AwaitingCommit().(watch := A.Saw(S.Arrives(WISH, CommitLine(1))), proof := A.Proof(0, 1, 2, 0, 0))
  }

  function Accepted(): A.Helper {
    Answered().(phase := A.Accepted, committed := true, proof := A.Proof(0, 1, 2, 3, 0))
  }

  function Command(): A.Launch {
    A.Launch(7, Argv(WISH.command), 0, 0, HERE, A.Base(ACCOUNT) + WISH.environment)
  }

  function Launched(): A.Helper {
    Accepted().(phase := A.Launched, launch := Some(Command()), proof := A.Proof(0, 1, 2, 3, 4))
  }

  function Reporting(): A.Helper {
    Launched().(phase := A.Reporting(true), mail := [A.ReceiptMail])
  }

  function Reported(): A.Helper {
    Reporting().(phase := A.CleaningUp, terminalSent := true, out := [ReadyReply, ExecutedReply(Some(4711.0))])
  }

  /** The world at time 0 with this row and this trace. */
  function At(status: Option<A.RowStatus>, trace: seq<A.Note>): A.World {
    A.World(1, 2, true, ACCOUNT, if status.None? then map[] else map[7 := A.Row(1, Asked(), status.value)], 0, trace)
  }

  const SIGNED := A.Signed(Asked())
  const VERIFIED := A.Verified(1, 0)
  const WATCHED := A.Watched(1, S.Arrives(WISH, CommitLine(1)))
  const TAKEN := A.Took(1, 7, 0)

  lemma StartIsRead(w: A.World)
    requires w == At(None, [])
    ensures A.Step(1, A.NEWBORN.(phase := A.AwaitStart), w, A.StartRead(S.Arrives(WISH, StartLine(1)))) == A.Move(Discovering(), w)
  {
    assert Plain(WISH.application, 80, false) && Plain(WISH.command, 512, false);
  }

  lemma RequestIsMade()
    ensures A.Step(1, Discovering(), At(None, []), A.Discovered(true, false, Some(HERE), 7, 0, true, FLUSHED))
         == A.Move(Delivering(), At(Some(A.Pending), []))
  {
  }

  lemma RequestIsDelivered(w: A.World)
    ensures A.Step(1, Delivering(), w, A.Delivered(true, FLUSHED)) == A.Move(Approving(), w)
  {
  }

  lemma SignatureIsVerified()
    ensures A.Step(1, Approving(), At(Some(A.Pending), [SIGNED]), A.Approved(A.Answer(Asked(), true, 0), FLUSHED))
         == A.Move(Announcing(), At(Some(A.Ready), [SIGNED, VERIFIED]))
  {
    assert A.Verifies(Approving(), At(Some(A.Pending), [SIGNED]), A.Answer(Asked(), true, 0));
  }

  lemma ReadyIsSent(w: A.World)
    ensures A.Step(1, Announcing(), w, A.ReadySent(FLUSHED)) == A.Move(AwaitingCommit(), w)
  {
  }

  lemma CommitIsSeen()
    ensures A.Step(1, AwaitingCommit(), At(Some(A.Ready), [SIGNED, VERIFIED]), A.WatcherRead(S.Arrives(WISH, CommitLine(1))))
         == A.Move(Answered(), At(Some(A.Ready), [SIGNED, VERIFIED, WATCHED]))
  {
  }

  lemma ProofIsTaken()
    ensures A.Step(1, Answered(), At(Some(A.Ready), [SIGNED, VERIFIED, WATCHED]), A.CommitRead(false, true, FLUSHED))
         == A.Move(Accepted(), At(Some(A.Consumed), [SIGNED, VERIFIED, WATCHED, TAKEN]))
  {
  }

  lemma CommandStarts()
    ensures A.Step(1, Accepted(), At(Some(A.Consumed), [SIGNED, VERIFIED, WATCHED, TAKEN]), A.Spawned(true))
         == A.Move(Launched(), At(Some(A.Consumed), [SIGNED, VERIFIED, WATCHED, TAKEN, A.Started(1, Command())]))
  {
  }

  lemma LaunchIsReported(w: A.World)
    ensures A.Step(1, Launched(), w, A.Recorded(true)) == A.Move(Launched().(phase := A.Confirming), w)
    ensures A.Step(1, Launched().(phase := A.Confirming), w, A.ReceiptDelivered(true)) == A.Move(Reporting(), w)
    ensures A.Step(1, Reporting(), w, A.ExecutedSent(4711, FLUSHED)) == A.Move(Reported(), w)
  {
  }

  // ----- the run -----

  /** A run to `s` in which the phone does not sign. */
  predicate Reached(from: S.Scene, events: seq<S.Event>, s: S.Scene) {
    S.Run(from, events) == s && NoSigning(events)
  }

  predicate NoSigning(events: seq<S.Event>) {
    forall i :: 0 <= i < |events| ==> !(events[i].AtAuthority? && events[i].auth.PhoneSigns?)
  }

  lemma {:induction false} RunSnoc(s: S.Scene, events: seq<S.Event>, e: S.Event)
    ensures S.Run(s, events + [e]) == S.Step(S.Run(s, events), e)
    decreases |events|
  {
    if events == [] {
      assert S.Run(S.Step(s, e), []) == S.Step(s, e);
    } else {
      assert (events + [e])[1..] == events[1..] + [e];
      RunSnoc(S.Step(s, events[0]), events[1..], e);
    }
  }

  lemma Go(from: S.Scene, events: seq<S.Event>, s: S.Scene, e: S.Event, t: S.Scene)
    requires Reached(from, events, s) && S.Step(s, e) == t && NoSigning([e])
    ensures Reached(from, events + [e], t)
  {
    assert !([e][0].AtAuthority? && [e][0].auth.PhoneSigns?);
    RunSnoc(from, events, e);
  }

  /** The first helper still waits for the lock, the second is somewhere on its way. */
  function Both(k: D.Desk, h: A.Helper, w: A.World): S.Scene {
    S.Scene(WISH, k, R.System([A.NEWBORN, h], Some(1), w), [0, 1])
  }

  lemma HelperMoves(from: S.Scene, events: seq<S.Event>, k: D.Desk, h: A.Helper, w: A.World, e: A.Event, g: A.Helper, v: A.World)
    requires Reached(from, events, Both(k, h, w)) && A.Step(1, h, w, e) == A.Move(g, v) && !e.Boot? && !g.phase.Gone?
    requires |C.Processes(k.client)| == 2 && S.MayRead(WISH, C.Processes(k.client)[1].sent, e)
    ensures Reached(from, events + [S.AtAuthority(R.HelperEvent(1, e))], Both(k, g, v))
  {
    Go(from, events, Both(k, h, w), S.AtAuthority(R.HelperEvent(1, e)), Both(k, g, v));
  }

  lemma DeskMoves(from: S.Scene, events: seq<S.Event>, k: D.Desk, h: A.Helper, w: A.World, e: D.Event, l: D.Desk)
    requires Reached(from, events, Both(k, h, w)) && D.Step(k, e) == l && |C.Processes(l.client)| == 2
    requires e.ClientEvent? && e.event.ReplyLine? ==> S.MayHear(h, e.event.reply)
    ensures Reached(from, events + [S.AtDesk(e)], Both(l, h, w))
  {
    Go(from, events, Both(k, h, w), S.AtDesk(e), Both(l, h, w));
  }

  lemma Opening() returns (events: seq<S.Event>)
    ensures Reached(START, events, S.Scene(WISH, Waiting(), R.System([A.NEWBORN, A.NEWBORN], None, At(None, [])), [0, 1]))
  {
    DeskFails();
    DeskRetries();
    var none := At(None, []);
    var one := R.System([A.NEWBORN], None, none);
    var two := R.System([A.NEWBORN, A.NEWBORN], None, none);
    events := [];
    FirstAdopts();
    Go(START, events, START, S.AtDesk(D.Show(true, true)), S.Scene(WISH, Shown(), one, [0]));
    events := events + [S.AtDesk(D.Show(true, true))];
    Go(START, events, S.Scene(WISH, Shown(), one, [0]), S.AtDesk(D.ClientEvent(C.ProcessExited)), S.Scene(WISH, Failed(), one, [0]));
    events := events + [S.AtDesk(D.ClientEvent(C.ProcessExited))];
    SecondAdopts();
    Go(START, events, S.Scene(WISH, Failed(), one, [0]), S.AtDesk(D.ClickRetry(true, true)), S.Scene(WISH, Retried(), two, [0, 1]));
    events := events + [S.AtDesk(D.ClickRetry(true, true))];
    Go(START, events, S.Scene(WISH, Retried(), two, [0, 1]), S.AtDesk(D.ClientEvent(C.ProcessStarted)), S.Scene(WISH, Waiting(), two, [0, 1]));
    events := events + [S.AtDesk(D.ClientEvent(C.ProcessStarted))];
  }

  lemma FirstAdopts()
    ensures S.Step(START, S.AtDesk(D.Show(true, true))) == S.Scene(WISH, Shown(), R.System([A.NEWBORN], None, At(None, [])), [0])
  {
    DeskFails();
  }

  lemma SecondAdopts()
    ensures S.Step(S.Scene(WISH, Failed(), R.System([A.NEWBORN], None, At(None, [])), [0]), S.AtDesk(D.ClickRetry(true, true)))
         == S.Scene(WISH, Retried(), R.System([A.NEWBORN, A.NEWBORN], None, At(None, [])), [0, 1])
  {
    DeskRetries();
    OneIsAdopted(S.Scene(WISH, Retried(), R.System([A.NEWBORN], None, At(None, [])), [0]));
  }

  lemma OneIsAdopted(s: S.Scene)
    requires |s.mine| + 1 == |C.Processes(s.desk.client)|
    ensures S.Adopt(s) == s.(auth := R.Step(s.auth, R.Fork), mine := s.mine + [|s.auth.helpers|])
  {
  }

  /** The lock, the start line, discovery and delivery. */
  lemma Asking() returns (events: seq<S.Event>)
    ensures Reached(START, events, Both(Waiting(), Approving(), At(Some(A.Pending), [])))
  {
    events := Opening();
    var k, boot := Waiting(), S.AtAuthority(R.HelperEvent(1, A.Boot(true)));
    LockIsTaken(k);
    Go(START, events, S.Scene(WISH, k, R.System([A.NEWBORN, A.NEWBORN], None, At(None, [])), [0, 1]), boot,
       Both(k, A.NEWBORN.(phase := A.AwaitStart), At(None, [])));
    events := events + [boot];
    var read, found := A.StartRead(S.Arrives(WISH, StartLine(1))), A.Discovered(true, false, Some(HERE), 7, 0, true, FLUSHED);
    StartIsRead(At(None, []));
    HelperMoves(START, events, k, A.NEWBORN.(phase := A.AwaitStart), At(None, []), read, Discovering(), At(None, []));
    events := events + [S.AtAuthority(R.HelperEvent(1, read))];
    RequestIsMade();
    HelperMoves(START, events, k, Discovering(), At(None, []), found, Delivering(), At(Some(A.Pending), []));
    events := events + [S.AtAuthority(R.HelperEvent(1, found))];
    RequestIsDelivered(At(Some(A.Pending), []));
    HelperMoves(START, events, k, Delivering(), At(Some(A.Pending), []), A.Delivered(true, FLUSHED), Approving(), At(Some(A.Pending), []));
    events := events + [S.AtAuthority(R.HelperEvent(1, A.Delivered(true, FLUSHED)))];
  }

  lemma LockIsTaken(k: D.Desk)
    ensures S.Step(S.Scene(WISH, k, R.System([A.NEWBORN, A.NEWBORN], None, At(None, [])), [0, 1]), S.AtAuthority(R.HelperEvent(1, A.Boot(true))))
         == Both(k, A.NEWBORN.(phase := A.AwaitStart), At(None, []))
  {
    assert A.Sweep(map[]) == map[];
  }

  /** The phone has signed. */
  function Signed(): S.Scene {
    Both(Waiting(), Approving(), At(Some(A.Pending), [SIGNED]))
  }

  /** The authority finds the signature and announces it, and the dialog commits. */
  lemma Committing() returns (events: seq<S.Event>)
    ensures Reached(Signed(), events, Both(Committed(), AwaitingCommit(), At(Some(A.Ready), [SIGNED, VERIFIED])))
  {
    events := [];
    var k := Waiting();
    var approved := A.Approved(A.Answer(Asked(), true, 0), FLUSHED);
    var w := At(Some(A.Ready), [SIGNED, VERIFIED]);
    SignatureIsVerified();
    HelperMoves(Signed(), events, k, Approving(), At(Some(A.Pending), [SIGNED]), approved, Announcing(), w);
    events := events + [S.AtAuthority(R.HelperEvent(1, approved))];
    ReadyIsSent(w);
    HelperMoves(Signed(), events, k, Announcing(), w, A.ReadySent(FLUSHED), AwaitingCommit(), w);
    events := events + [S.AtAuthority(R.HelperEvent(1, A.ReadySent(FLUSHED)))];
    var heard := D.ClientEvent(C.ReplyLine(Reply(1, ReadyReply)));
    ReadyCommits(k);
    DeskMoves(Signed(), events, k, AwaitingCommit(), w, heard, Committed());
    events := events + [S.AtDesk(heard)];
  }

  const RUNNING := At(Some(A.Consumed), [SIGNED, VERIFIED, WATCHED, TAKEN, A.Started(1, Command())])

  lemma Starting() returns (events: seq<S.Event>)
    ensures Reached(Signed(), events, Both(Committed(), Launched(), RUNNING))
  {
    events := Committing();
    var k := Committed();
    var seen, ready := A.WatcherRead(S.Arrives(WISH, CommitLine(1))), At(Some(A.Ready), [SIGNED, VERIFIED, WATCHED]);
    CommitIsSeen();
    HelperMoves(Signed(), events, k, AwaitingCommit(), At(Some(A.Ready), [SIGNED, VERIFIED]), seen, Answered(), ready);
    events := events + [S.AtAuthority(R.HelperEvent(1, seen))];
    var read, taken := A.CommitRead(false, true, FLUSHED), At(Some(A.Consumed), [SIGNED, VERIFIED, WATCHED, TAKEN]);
    ProofIsTaken();
    HelperMoves(Signed(), events, k, Answered(), ready, read, Accepted(), taken);
    events := events + [S.AtAuthority(R.HelperEvent(1, read))];
    CommandStarts();
    HelperMoves(Signed(), events, k, Accepted(), taken, A.Spawned(true), Launched(), RUNNING);
    events := events + [S.AtAuthority(R.HelperEvent(1, A.Spawned(true)))];
  }

  lemma Answering() returns (events: seq<S.Event>)
    ensures Reached(Signed(), events, Both(Committed(), Reported(), RUNNING))
  {
    events := Starting();
    var k, confirming := Committed(), Launched().(phase := A.Confirming);
    LaunchIsReported(RUNNING);
    HelperMoves(Signed(), events, k, Launched(), RUNNING, A.Recorded(true), confirming, RUNNING);
    events := events + [S.AtAuthority(R.HelperEvent(1, A.Recorded(true)))];
    HelperMoves(Signed(), events, k, confirming, RUNNING, A.ReceiptDelivered(true), Reporting(), RUNNING);
    events := events + [S.AtAuthority(R.HelperEvent(1, A.ReceiptDelivered(true)))];
    HelperMoves(Signed(), events, k, Reporting(), RUNNING, A.ExecutedSent(4711, FLUSHED), Reported(), RUNNING);
    events := events + [S.AtAuthority(R.HelperEvent(1, A.ExecutedSent(4711, FLUSHED)))];
  }

  lemma Ending() returns (events: seq<S.Event>)
    ensures Reached(Signed(), events, Both(Ended(), Reported(), RUNNING))
  {
    events := Answering();
    var k := Committed();
    var heard := D.ClientEvent(C.ReplyLine(Reply(1, ExecutedReply(Some(4711.0)))));
    ExecutedEnds(k, 4711.0);
    DeskMoves(Signed(), events, k, Reported(), RUNNING, heard, Ended());
    events := events + [S.AtDesk(heard)];
  }

  lemma PhoneSigns()
    ensures R.Step(Both(Waiting(), Approving(), At(Some(A.Pending), [])).auth, R.PhoneSigns(Asked())) == Signed().auth
  {
  }

  /** The intended exchange, at the second attempt. */
  predicate Succeeded(t: S.Scene) {
    && t.desk.dialog.outcome == Some(D.PhoneExecuted)
    && t.desk.client.verdicts == [C.Verdict(0, C.PhoneUnavailable), C.Verdict(1, C.LaunchAcknowledged)]
    && X.OwnLaunches(t) == {4}
    && t.auth.world.trace[4] == A.Started(1, Command())
  }

  lemma EndIsSuccess()
    ensures Succeeded(Both(Ended(), Reported(), RUNNING))
  {
    OnlyLaunch(Both(Ended(), Reported(), RUNNING));
  }

  lemma OnlyLaunch(s: S.Scene)
    requires s.auth.world == RUNNING && s.mine == [0, 1]
    ensures X.OwnLaunches(s) == {4}
  {
  }
}
