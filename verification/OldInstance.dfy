/** The runs in which an instance that comes back breaks the activity's promises: it still
    offers a request that the instance above it has signed. */
module OldInstance {
  import opened Protocol
  import M = MailboxSteps
  import V = ActivitySteps
  import opened B = BackStackSteps
  import P = BackStackProofs
  import H = Rehearsal
  import K = Walkthrough

  /** The first instance, stopped with the request on its screen. */
  function Old(): V.Screen {
    H.Offering().screen.(stopped := true)
  }

  /** The second instance has signed the request. */
  function Signed(): V.Phone {
    V.Step(H.Prompting(), V.Succeeded(0, true, 0, true))
  }

  /** The owner has gone back to the first instance. */
  function Back(): Stack {
    Stack(Signed().(screen := Old()), [])
  }

  lemma Then(t: Stack, events: seq<Event>, more: seq<Event>, u: Stack, v: Stack)
    requires Run(t, events) == u && Run(u, more) == v
    ensures Run(t, events + more) == v
  {
    P.StackAppend(t, events, more);
  }

  lemma One(t: Stack, e: Event)
    ensures Run(t, [e]) == Step(t, e)
  {
    assert [e][1..] == [];
  }

  lemma StoppingKeepsTheOffer()
    ensures Step(Stack(H.Offering(), []), Here(V.Stop)) == Stack(H.Offering().(screen := Old()), [])
  {
  }

  /** The second instance reads the request anew. */
  lemma SecondInstanceWakes(p: V.Phone)
    requires p == H.Offering().(screen := V.BLANK)
    ensures V.Step(V.Step(V.Step(p, V.Start), V.Prepare(false, true)), V.PollRead)
         == H.Awake().(polling := Some(V.Snapshot(Some(H.Request()), 1)))
  {
  }

  lemma SecondInstanceSigns() returns (events: seq<V.Event>)
    ensures V.Run(H.Offering().(screen := V.BLANK), events) == Signed()
  {
    var p := H.Offering().(screen := V.BLANK);
    var awake := H.Awake().(polling := Some(V.Snapshot(Some(H.Request()), 1)));
    SecondInstanceWakes(p);
    H.RequestIsOffered();
    H.OwnerPresses();
    events := [];
    H.PhoneSnoc(p, events, V.Start);
    events := events + [V.Start];
    H.PhoneSnoc(p, events, V.Prepare(false, true));
    events := events + [V.Prepare(false, true)];
    H.PhoneSnoc(p, events, V.PollRead);
    events := events + [V.PollRead];
    var rest := Approving(awake);
    P.RunAppend(p, events, rest);
    events := events + rest;
  }

  lemma Approving(awake: V.Phone) returns (events: seq<V.Event>)
    requires awake == H.Awake().(polling := Some(V.Snapshot(Some(H.Request()), 1)))
    ensures V.Run(awake, events) == Signed()
  {
    H.RequestIsOffered();
    H.OwnerPresses();
    events := [];
    H.PhoneSnoc(awake, events, V.PollFinish(H.QUIET));
    events := events + [V.PollFinish(H.QUIET)];
    H.PhoneSnoc(awake, events, V.Press);
    events := events + [V.Press];
    H.PhoneSnoc(awake, events, V.Prompt(0, true));
    events := events + [V.Prompt(0, true)];
    H.PhoneSnoc(awake, events, V.Succeeded(0, true, 0, true));
    events := events + [V.Succeeded(0, true, 0, true)];
  }

  /** The first instance has read the request and is stopped by another screen of the app. */
  lemma GoingAway() returns (events: seq<Event>)
    ensures Run(Initial(H.EMPTY), events) == Stack(H.Offering().(screen := Old()), [])
  {
    var reading := H.Reading();
    var offering := Stack(H.Offering(), []);
    P.RunHere(Initial(H.EMPTY), reading);
    StoppingKeepsTheOffer();
    One(offering, Here(V.Stop));
    Then(Initial(H.EMPTY), P.AllHere(reading), [Here(V.Stop)], offering, Stack(H.Offering().(screen := Old()), []));
    events := P.AllHere(reading) + [Here(V.Stop)];
  }

  /** A notification opens the app over that screen; the owner approves there and goes back
      twice. */
  lemma GoingBack() returns (events: seq<Event>)
    ensures Run(Initial(H.EMPTY), events) == Back()
  {
    events := GoingAway();
    var stopped := Stack(H.Offering().(screen := Old()), []);
    var covered := Stack(H.Offering().(screen := V.BLANK), [Old()]);
    One(stopped, Cover(None));
    Then(Initial(H.EMPTY), events, [Cover(None)], stopped, covered);
    events := events + [Cover(None)];
    var signing := SecondInstanceSigns();
    P.RunHere(covered, signing);
    Then(Initial(H.EMPTY), events, P.AllHere(signing), covered, Stack(Signed(), [Old()]));
    events := events + P.AllHere(signing);
    One(Stack(Signed(), [Old()]), Return(0, true));
    Then(Initial(H.EMPTY), events, [Return(0, true)], Stack(Signed(), [Old()]), Back());
    events := events + [Return(0, true)];
  }

  lemma SignedFacts()
    ensures Signed().log == [V.Signing(K.Asked(), 1, 0, 0, K.WISH.command)]
    ensures Signed().answers == [M.SignedResponse(7, K.Asked(), 0)]
    ensures Signed().mailbox == H.Full().(response := Some(M.SignedResponse(7, K.Asked(), 0))) && Signed().polling.None?
  {
  }

  const DECLINE := [V.Start, V.Delivered(M.Tick(120000)), V.PollRead, V.PollFinish(H.QUIET)]

  const APPROVE := [V.Start, V.Press, V.Prompt(0, true), V.Succeeded(0, true, 0, true)]

  /** Up to the poll after the request's expiry. */
  function Late(): V.Phone {
    Signed().(screen := Old().(stopped := false), mailbox := Signed().mailbox.(now := 120000),
              polling := Some(V.Snapshot(Some(H.Request()), 1)))
  }

  lemma TimePasses()
    ensures V.Step(V.Step(V.Step(Back().phone, V.Start), V.Delivered(M.Tick(120000))), V.PollRead) == Late()
  {
    SignedFacts();
  }

  lemma PollDeclines()
    ensures V.Step(Late(), V.PollFinish(H.QUIET)).answers == [M.SignedResponse(7, K.Asked(), 0), M.DeclinedResponse(7)]
    ensures V.Step(Late(), V.PollFinish(H.QUIET)).mailbox.response == Some(M.DeclinedResponse(7))
    ensures V.Step(Late(), V.PollFinish(H.QUIET)).mailbox.writes == 1
  {
    SignedFacts();
  }

  /** The old instance's poll writes a decline over the response that was signed, within the
      request's stay. */
  lemma OldInstanceDeclines() returns (events: seq<Event>)
    ensures var p := Run(Initial(H.EMPTY), events).phone;
            && p.log == [V.Signing(K.Asked(), 1, 0, 0, K.WISH.command)] && p.mailbox.writes == 1
            && p.answers == [M.SignedResponse(7, K.Asked(), 0), M.DeclinedResponse(7)]
            && p.mailbox.response == Some(M.DeclinedResponse(7))
  {
    var first := GoingBack();
    P.RunHere(Back(), DECLINE);
    P.Four(Back().phone, V.Start, V.Delivered(M.Tick(120000)), V.PollRead, V.PollFinish(H.QUIET));
    TimePasses();
    PollDeclines();
    SignedFacts();
    LateLog();
    P.StackAppend(Initial(H.EMPTY), first, P.AllHere(DECLINE));
    events := first + P.AllHere(DECLINE);
  }

  lemma LateLog()
    ensures V.Step(Late(), V.PollFinish(H.QUIET)).log == Late().log
  {
  }

  /** The old instance is in the foreground again, with its offer. */
  function Awake(): V.Phone {
    Signed().(screen := H.Offering().screen)
  }

  function Pressed(): V.Screen {
    H.Prompting().screen.(active := Some(V.Attempt(H.Offer(), 0, None)))
  }

  lemma OldInstanceWakes()
    ensures V.Step(Back().phone, V.Start) == Awake()
  {
    SignedFacts();
  }

  lemma OldButtonBegins()
    ensures V.Step(Awake(), V.Press) == Signed().(screen := Pressed())
  {
    SignedFacts();
  }

  lemma OldPromptIsShown()
    ensures V.Step(Signed().(screen := Pressed()), V.Prompt(0, true)) == Signed().(screen := H.Prompting().screen)
  {
    SignedFacts();
  }

  lemma OldPromptSigns()
    ensures V.Step(Signed().(screen := H.Prompting().screen), V.Succeeded(0, true, 0, true)).log
         == [V.Signing(K.Asked(), 1, 0, 0, K.WISH.command), V.Signing(K.Asked(), 1, 0, 0, K.WISH.command)]
  {
    SignedFacts();
  }

  /** Its button signs the same request a second time in the same stay. */
  lemma OldInstanceSignsAgain() returns (events: seq<Event>)
    ensures var log := Run(Initial(H.EMPTY), events).phone.log;
            |log| == 2 && log[0].payload == log[1].payload == K.Asked() && log[0].stay == log[1].stay
  {
    var first := GoingBack();
    P.RunHere(Back(), APPROVE);
    P.Four(Back().phone, V.Start, V.Press, V.Prompt(0, true), V.Succeeded(0, true, 0, true));
    OldInstanceWakes();
    OldButtonBegins();
    OldPromptIsShown();
    OldPromptSigns();
    P.StackAppend(Initial(H.EMPTY), first, P.AllHere(APPROVE));
    events := first + P.AllHere(APPROVE);
  }

  /** What could have been seen when the old instance came back. */
  lemma OldInstanceIsNotHarmless()
    ensures !Harmless(Old(), Signed())
  {
    SignedFacts();
  }
}
