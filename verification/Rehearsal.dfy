/** The intended exchange with the phone in it: the request arrives through KDE Connect, the
    owner confirms it, and the dialog of `Walkthrough` ends with its command running. */
module Rehearsal {
  import opened Protocol
  import A = AuthoritySteps
  import M = MailboxSteps
  import S = ExecutionSteps
  import V = ActivitySteps
  import W = ActivityProofs
  import B = BackStackSteps
  import E = EndToEnd
  import K = Walkthrough

  // ----- the phone -----

  const EMPTY := M.Mailbox(2, map[1 := M.Pairing(1, 9)], 0, None, 0, None, None, None, map[])

  const QUIET := V.Findings(true, M.No, M.No, M.No)

  function Request(): M.Envelope {
    M.Envelope(1, 2, 9, 1, 0, true, K.Asked())
  }

  function Offer(): V.Offer {
    V.Offer(M.Challenge(Request(), A.LIFETIME), 1)
  }

  function Full(): M.Mailbox {
    EMPTY.(request := Some(Request()), writes := 1)
  }

  /** The activity is in the foreground, its key is ready and the mailbox has the request. */
  function Awake(): V.Phone {
    V.Phone(Full(), V.BLANK.(stopped := false, keyed := true), None, [], [])
  }

  function Offering(): V.Phone {
    Awake().(screen := Awake().screen.(seen := Some(Request()), pending := Some(Offer())))
  }

  function Prompting(): V.Phone {
    Offering().(screen := Offering().screen.(active := Some(V.Attempt(Offer(), 0, Some(K.WISH.command))), timer := true, attempts := 1))
  }

  lemma RequestIsValid(m: M.Mailbox)
    requires m == EMPTY || m == Full()
    ensures M.Validate(m, Request(), false) == M.Valid(M.Challenge(Request(), A.LIFETIME))
  {
  }

  lemma RequestArrives()
    ensures M.Step(EMPTY, M.Shared(M.RequestMail(7, Request()))) == Full()
  {
    RequestIsValid(EMPTY);
    assert M.Prune(map[], 0) == map[];
  }

  lemma RequestIsOffered()
    ensures V.Step(Awake().(polling := Some(V.Snapshot(Some(Request()), 1))), V.PollFinish(QUIET)) == Offering()
  {
    RequestIsValid(Full());
  }

  lemma OwnerPresses()
    ensures V.Step(V.Step(Offering(), V.Press), V.Prompt(0, true)) == Prompting()
  {
  }

  lemma OwnerConfirms()
    ensures V.Step(Prompting(), V.Succeeded(0, true, 0, true)).log == [V.Signing(K.Asked(), 1, 0, 0, K.WISH.command)]
  {
  }

  lemma {:induction false} PhoneSnoc(p: V.Phone, events: seq<V.Event>, e: V.Event)
    ensures V.Run(p, events + [e]) == V.Step(V.Run(p, events), e)
    decreases |events|
  {
    if events == [] {
      assert V.Run(V.Step(p, e), []) == V.Step(p, e);
    } else {
      assert (events + [e])[1..] == events[1..] + [e];
      PhoneSnoc(V.Step(p, events[0]), events[1..], e);
    }
  }

  /** From the empty mailbox to the first read of a poll. */
  lemma Waking() returns (events: seq<V.Event>)
    ensures V.Run(V.Initial(EMPTY), events) == Awake().(polling := Some(V.Snapshot(Some(Request()), 1)))
  {
    RequestArrives();
    events := [V.Delivered(M.Shared(M.RequestMail(7, Request())))];
    PhoneSnoc(V.Initial(EMPTY), [], events[0]);
    assert [] + events == events;
    PhoneSnoc(V.Initial(EMPTY), events, V.Start);
    events := events + [V.Start];
    PhoneSnoc(V.Initial(EMPTY), events, V.Prepare(false, true));
    events := events + [V.Prepare(false, true)];
    PhoneSnoc(V.Initial(EMPTY), events, V.PollRead);
    events := events + [V.PollRead];
  }

  lemma Reading() returns (events: seq<V.Event>)
    ensures V.Run(V.Initial(EMPTY), events) == Offering()
  {
    events := Waking();
    RequestIsOffered();
    PhoneSnoc(V.Initial(EMPTY), events, V.PollFinish(QUIET));
    events := events + [V.PollFinish(QUIET)];
  }

  lemma Asking() returns (events: seq<V.Event>)
    ensures V.Run(V.Initial(EMPTY), events) == Prompting()
  {
    events := Reading();
    OwnerPresses();
    PhoneSnoc(V.Initial(EMPTY), events, V.Press);
    events := events + [V.Press];
    PhoneSnoc(V.Initial(EMPTY), events, V.Prompt(0, true));
    events := events + [V.Prompt(0, true)];
  }

  // ----- both together -----

  function OnComputer(events: seq<S.Event>): seq<E.Event> {
    seq(|events|, i requires 0 <= i < |events| => E.AtComputer(events[i]))
  }

  function OnPhone(events: seq<V.Event>): seq<E.Event> {
    seq(|events|, i requires 0 <= i < |events| => E.AtPhone(B.Here(events[i])))
  }

  lemma {:induction false} RunAppend(w: E.Whole, a: seq<E.Event>, b: seq<E.Event>)
    ensures E.Run(w, a + b) == E.Run(E.Run(w, a), b)
    decreases |a|
  {
    if a == [] {
      assert a + b == b;
    } else {
      assert (a + b)[1..] == a[1..] + b;
      RunAppend(E.Step(w, a[0]), a[1..], b);
    }
  }

  lemma {:induction false} RunOnComputer(w: E.Whole, events: seq<S.Event>)
    requires K.NoSigning(events)
    ensures E.Run(w, OnComputer(events)) == w.(scene := S.Run(w.scene, events))
    decreases |events|
  {
    if events != [] {
      assert OnComputer(events)[1..] == OnComputer(events[1..]);
      assert K.NoSigning(events[1..]);
      RunOnComputer(w.(scene := S.Step(w.scene, events[0])), events[1..]);
    }
  }

  lemma FirstIsQuiet(p: V.Phone, events: seq<V.Event>)
    requires W.Sound(p) && events != [] && V.Run(p, events).log == p.log
    ensures V.Step(p, events[0]).log == p.log && W.Sound(V.Step(p, events[0]))
  {
    W.StepKeepsSound(p, events[0]);
    W.RunKeepsSound(V.Step(p, events[0]), events[1..]);
  }

  /** A run of the phone in which the key is not used. */
  lemma {:induction false} RunOnPhone(w: E.Whole, events: seq<V.Event>)
    requires W.Sound(w.stack.phone) && V.Run(w.stack.phone, events).log == w.stack.phone.log
    ensures E.Run(w, OnPhone(events)) == w.(stack := w.stack.(phone := V.Run(w.stack.phone, events)))
    decreases |events|
  {
    if events != [] {
      var p := V.Step(w.stack.phone, events[0]);
      FirstIsQuiet(w.stack.phone, events);
      assert OnPhone(events)[1..] == OnPhone(events[1..]);
      RunOnPhone(w.(stack := w.stack.(phone := p)), events[1..]);
    }
  }

  lemma Signing(s: S.Scene)
    requires s == K.Both(K.Waiting(), K.Approving(), K.At(Some(A.Pending), []))
    ensures E.Step(E.Whole(s, B.Stack(Prompting(), [])), E.AtPhone(B.Here(V.Succeeded(0, true, 0, true))))
         == E.Whole(K.Signed(), B.Stack(V.Step(Prompting(), V.Succeeded(0, true, 0, true)), []))
  {
    OwnerConfirms();
    K.PhoneSigns();
  }

  function Beginning(): E.Whole {
    E.Initial(K.WISH, 1, 2, true, K.ACCOUNT, EMPTY)
  }

  /** Up to the fingerprint prompt. */
  lemma Prelude() returns (events: seq<E.Event>)
    ensures E.Run(Beginning(), events) == E.Whole(K.Both(K.Waiting(), K.Approving(), K.At(Some(A.Pending), [])), B.Stack(Prompting(), []))
  {
    var opening := K.Asking();
    var asking := Asking();
    events := OnComputer(opening) + OnPhone(asking);
    RunOnComputer(Beginning(), opening);
    RunAppend(Beginning(), OnComputer(opening), OnPhone(asking));
    W.InitialInv(EMPTY);
    RunOnPhone(E.Run(Beginning(), OnComputer(opening)), asking);
  }

  lemma Performance() returns (events: seq<E.Event>)
    ensures var w := E.Run(Beginning(), events);
            && w.scene == K.Both(K.Ended(), K.Reported(), K.RUNNING)
            && w.stack.phone == V.Step(Prompting(), V.Succeeded(0, true, 0, true))
  {
    var before := Prelude();
    var after := K.Ending();
    var sign := E.AtPhone(B.Here(V.Succeeded(0, true, 0, true)));
    var s := K.Both(K.Waiting(), K.Approving(), K.At(Some(A.Pending), []));
    Signing(s);
    RunAppend(Beginning(), before, [sign] + OnComputer(after));
    assert ([sign] + OnComputer(after))[1..] == OnComputer(after);
    RunOnComputer(E.Whole(K.Signed(), B.Stack(V.Step(Prompting(), sign.phone.event), [])), after);
    events := before + ([sign] + OnComputer(after));
  }

  /** From nothing, with a failed first attempt and a Retry, to a command that runs as root
      by the one use of the key, for which the prompt showed it. */
  lemma RetriedDialogLaunches() returns (events: seq<E.Event>)
    ensures var w := E.Run(Beginning(), events);
            && K.Succeeded(w.scene)
            && w.stack.phone.log == [V.Signing(K.Asked(), 1, 0, 0, K.WISH.command)]
            && E.Backs(w, 4, 0)
  {
    events := Performance();
    K.EndIsSuccess();
    OwnerConfirms();
    EndIsBacked(E.Run(Beginning(), events));
  }

  lemma EndIsBacked(w: E.Whole)
    requires w.scene == K.Both(K.Ended(), K.Reported(), K.RUNNING)
    requires w.stack.phone.log == [V.Signing(K.Asked(), 1, 0, 0, K.WISH.command)]
    ensures E.Backs(w, 4, 0)
  {
    assert E.Confirmed(w.scene.auth.world.trace, 4, K.Asked(), 0, 2);
  }
}
