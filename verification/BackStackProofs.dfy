/** What holds over every run of the back stack, and exactly when an instance that comes back
    leaves the activity's promises standing. */
module BackStackProofs {
  import opened Protocol
  import M = MailboxSteps
  import N = MailboxProofs
  import V = ActivitySteps
  import W = ActivityProofs
  import opened BackStackSteps

  // ----- every run -----

  /** What all instances keep, whichever of them acts. */
  predicate Sound(t: Stack) {
    W.Sound(t.phone) && forall k :: 0 <= k < |t.covered| ==> W.Steady(t.covered[k], t.phone.mailbox)
  }

  predicate Inv(t: Stack) {
    Sound(t) && W.Novel(t.phone)
  }

  /** All instances, whichever acts. */
  function Instances(t: Stack): multiset<V.Screen> {
    multiset(t.covered) + multiset{t.phone.screen}
  }

  lemma WithoutLeaves<T>(covered: seq<T>, k: nat, away: T)
    requires k < |covered|
    ensures multiset(covered[..k] + covered[k + 1..]) + multiset{covered[k]} == multiset(covered)
    ensures multiset(covered[k := away]) + multiset{covered[k]} == multiset(covered) + multiset{away}
  {
    assert covered == covered[..k] + [covered[k]] + covered[k + 1..];
    assert multiset(covered) == multiset(covered[..k]) + multiset{covered[k]} + multiset(covered[k + 1..]);
  }

  /** What an event of the back stack leaves of the instances. */
  predicate Kept(t: Stack, e: Event, u: Stack) {
    match e
    case Cover(id) =>
      && u.phone == t.phone.(screen := V.BLANK.(openedId := id, attempts := t.phone.screen.attempts))
      && Instances(u) == Instances(t) + multiset{u.phone.screen}
    case Return(k, closed) =>
      k < |t.covered| ==>
        && u.phone == t.phone.(screen := t.covered[k])
        && Instances(u) + (if closed then multiset{t.phone.screen} else multiset{}) == Instances(t)
    case Forget(k) =>
      k < |t.covered| ==> u.phone == t.phone && Instances(u) + multiset{t.covered[k]} == Instances(t)
    case Prepared(k, busy, keyed) =>
      k < |t.covered| ==>
        && u.phone == t.phone
        && Instances(u) + multiset{t.covered[k]} == Instances(t) + multiset{t.covered[k].(busy := busy, keyed := keyed)}
    case Here(event) => u.phone == V.Step(t.phone, event) && u.covered == t.covered
  }

  lemma CoverKeeps(t: Stack, id: Option<nat>)
    requires t.phone.polling.None?
    ensures Kept(t, Cover(id), Step(t, Cover(id)))
  {
  }

  lemma ReturnKeeps(t: Stack, k: nat, closed: bool)
    requires t.phone.polling.None? && k < |t.covered|
    ensures Kept(t, Return(k, closed), Step(t, Return(k, closed)))
  {
    WithoutLeaves(t.covered, k, t.phone.screen);
  }

  lemma ForgetKeeps(t: Stack, k: nat)
    requires t.phone.polling.None? && k < |t.covered|
    ensures Kept(t, Forget(k), Step(t, Forget(k)))
  {
    WithoutLeaves(t.covered, k, t.phone.screen);
  }

  lemma PreparationKeeps(t: Stack, k: nat, busy: bool, keyed: bool)
    requires t.phone.polling.None? && k < |t.covered|
    ensures Kept(t, Prepared(k, busy, keyed), Step(t, Prepared(k, busy, keyed)))
  {
    WithoutLeaves(t.covered, k, t.covered[k].(busy := busy, keyed := keyed));
  }

  /** No instance is lost or made up: a new one comes with its intent, one that is left or
      forgotten goes, and a change of places keeps them all, each with its fields; mailbox and
      key take no part in it. */
  lemma InstancesAreKept(t: Stack, e: Event)
    requires t.phone.polling.None?
    ensures Kept(t, e, Step(t, e))
  {
    match e {
      case Cover(id) => CoverKeeps(t, id);
      case Return(k, closed) => if k < |t.covered| { ReturnKeeps(t, k, closed); }
      case Forget(k) => if k < |t.covered| { ForgetKeeps(t, k); }
      case Prepared(k, busy, keyed) => if k < |t.covered| { PreparationKeeps(t, k, busy, keyed); }
      case Here(_) =>
    }
  }

  lemma PreparedIsSteady(s: V.Screen, busy: bool, keyed: bool, m: M.Mailbox)
    requires W.Steady(s, m)
    ensures W.Steady(s.(busy := busy, keyed := keyed), m)
  {
  }

  lemma SwapKeepsSound(p: V.Phone, s: V.Screen)
    requires W.Sound(p) && W.Steady(s, p.mailbox)
    ensures W.Sound(p.(screen := s))
  {
  }

  lemma BlankIsSteady(id: Option<nat>, attempts: nat, m: M.Mailbox)
    ensures W.Steady(V.BLANK.(openedId := id, attempts := attempts), m)
  {
  }

  lemma ArrangeKeepsSound(t: Stack, e: Event)
    requires Sound(t)
    ensures Sound(Arrange(t, e)) && Arrange(t, e).phone == t.phone.(screen := Arrange(t, e).phone.screen)
  {
    match e {
      case Here(_) =>
      case Cover(id) =>
        BlankIsSteady(id, t.phone.screen.attempts, t.phone.mailbox);
        SwapKeepsSound(t.phone, Arrange(t, e).phone.screen);
      case Return(k, _) => if k < |t.covered| { SwapKeepsSound(t.phone, t.covered[k]); }
      case Forget(_) =>
      case Prepared(k, busy, keyed) => if k < |t.covered| { PreparedIsSteady(t.covered[k], busy, keyed, t.phone.mailbox); }
    }
  }

  lemma HereKeepsSound(t: Stack, e: V.Event)
    requires Sound(t)
    ensures Sound(t.(phone := V.Step(t.phone, e))) && t.phone.log <= V.Step(t.phone, e).log
  {
    var p := V.Step(t.phone, e);
    W.StepKeepsSound(t.phone, e);
    W.StepRaises(t.phone, e);
    forall k | 0 <= k < |t.covered|
      ensures W.Steady(t.covered[k], p.mailbox)
    {
      W.RaisedKeepsSteady(t.covered[k], t.phone.mailbox, p.mailbox);
    }
  }

  lemma StepKeepsSound(t: Stack, e: Event)
    requires Sound(t)
    ensures Sound(Step(t, e)) && t.phone.log <= Step(t, e).phone.log
  {
    if e.Here? {
      HereKeepsSound(t, e.event);
    } else {
      ArrangeKeepsSound(t, e);
    }
  }

  /** Over every run, with any number of instances, every use of the key is for a vetted
      request of this phone, before its expiry, with its command on the prompt. */
  lemma {:induction false} RunKeepsSound(t: Stack, events: seq<Event>)
    requires Sound(t)
    ensures Sound(Run(t, events)) && t.phone.log <= Run(t, events).phone.log
    decreases |events|
  {
    if events != [] {
      StepKeepsSound(t, events[0]);
      RunKeepsSound(Step(t, events[0]), events[1..]);
    }
  }

  lemma InitialInv(m: M.Mailbox)
    ensures Inv(Initial(m))
  {
    W.InitialInv(m);
  }

  // ----- careful runs -----

  lemma HarmlessKeepsNovel(p: V.Phone, s: V.Screen)
    requires W.Inv(p) && p.polling.None? && W.Steady(s, p.mailbox) && Harmless(s, p)
    ensures W.Novel(p.(screen := s))
  {
  }

  lemma ArrangeKeepsNovel(t: Stack, e: Event)
    requires Inv(t) && t.phone.polling.None?
    requires e.Return? && e.k < |t.covered| ==> Harmless(t.covered[e.k], t.phone)
    ensures W.Novel(Arrange(t, e).phone)
  {
    match e {
      case Here(_) =>
      case Cover(id) =>
        BlankIsSteady(id, t.phone.screen.attempts, t.phone.mailbox);
        HarmlessKeepsNovel(t.phone, Arrange(t, e).phone.screen);
      case Return(k, _) => if k < |t.covered| { HarmlessKeepsNovel(t.phone, t.covered[k]); }
      case Forget(_) =>
      case Prepared(_, _, _) =>
    }
  }

  lemma StepKeepsInv(t: Stack, e: Event)
    requires Inv(t)
    requires e.Return? && t.phone.polling.None? && e.k < |t.covered| ==> Harmless(t.covered[e.k], t.phone)
    ensures Inv(Step(t, e))
  {
    StepKeepsSound(t, e);
    if e.Here? {
      W.StepKeepsNovel(t.phone, e.event);
    } else if t.phone.polling.None? {
      ArrangeKeepsNovel(t, e);
    }
  }

  lemma {:induction false} RunKeepsInv(t: Stack, events: seq<Event>)
    requires Inv(t) && Careful(t, events)
    ensures Inv(Run(t, events))
    decreases |events|
  {
    if events != [] {
      StepKeepsInv(t, events[0]);
      RunKeepsInv(Step(t, events[0]), events[1..]);
    }
  }

  /** During one stay in the mailbox a request is signed at most once. */
  lemma SignedOncePerStay(m: M.Mailbox, events: seq<Event>, i: nat, j: nat)
    requires Careful(Initial(m), events)
    requires i < j < |Run(Initial(m), events).phone.log|
    ensures var log := Run(Initial(m), events).phone.log; log[i].stay != log[j].stay
  {
    InitialInv(m);
    RunKeepsInv(Initial(m), events);
  }

  /** Nothing is written over the response to the same request: neither a decline nor a second
      signature, wherever in the code it is written. */
  lemma NoAnswerIsRepeated(m: M.Mailbox, events: seq<Event>, i: nat)
    requires Careful(Initial(m), events)
    requires 0 < i < |Run(Initial(m), events).phone.answers|
    ensures var answers := Run(Initial(m), events).phone.answers; answers[i].requestId != answers[i - 1].requestId
  {
    InitialInv(m);
    RunKeepsInv(Initial(m), events);
  }

  /** The history is the mailbox's, careful or not: its last entry is the response in it. */
  lemma LastAnswerIsInTheMailbox(m: M.Mailbox, events: seq<Event>)
    ensures var p := Run(Initial(m), events).phone;
            if p.mailbox.response.None? then p.answers == []
            else |p.answers| > 0 && p.answers[|p.answers| - 1] == p.mailbox.response.value
  {
    InitialInv(m);
    RunKeepsSound(Initial(m), events);
  }

  lemma StepRaises(t: Stack, e: Event)
    requires Sound(t)
    ensures W.Raised(t.phone.mailbox, Step(t, e).phone.mailbox)
  {
    if e.Here? {
      W.StepRaises(t.phone, e.event);
    } else {
      ArrangeKeepsSound(t, e);
    }
  }

  lemma {:induction false} RunRaises(t: Stack, events: seq<Event>)
    requires Sound(t)
    ensures W.Raised(t.phone.mailbox, Run(t, events).phone.mailbox)
    decreases |events|
  {
    if events != [] {
      var u := Step(t, events[0]);
      StepKeepsSound(t, events[0]);
      StepRaises(t, events[0]);
      RunRaises(u, events[1..]);
      W.RaisedTransitive(t.phone.mailbox, u.phone.mailbox, Run(u, events[1..]).phone.mailbox);
    }
  }

  lemma SignedStayIsOver(t: Stack, e: Event)
    requires Inv(t) && V.SignedIn(t.phone.log, t.phone.mailbox.writes)
    ensures Step(t, e).phone.mailbox.response == t.phone.mailbox.response
    ensures V.SignedIn(Step(t, e).phone.log, t.phone.mailbox.writes)
  {
    StepKeepsSound(t, e);
    if e.Here? {
      W.SignedStayIsOver(t.phone, e.event);
    } else {
      ArrangeKeepsSound(t, e);
    }
    var i :| 0 <= i < |t.phone.log| && t.phone.log[i].stay == t.phone.mailbox.writes;
    assert Step(t, e).phone.log[i] == t.phone.log[i];
  }

  /** A response to a signed request outlives everything but the end of its request's stay,
      and the request is not offered for approval again. */
  lemma {:induction false} SignedResponseStands(t: Stack, events: seq<Event>)
    requires Inv(t) && Careful(t, events) && V.SignedIn(t.phone.log, t.phone.mailbox.writes)
    requires Run(t, events).phone.mailbox.writes == t.phone.mailbox.writes
    ensures Run(t, events).phone.mailbox.response == t.phone.mailbox.response
    ensures W.Quiet(Run(t, events).phone.screen)
    decreases |events|
  {
    if events != [] {
      var u := Step(t, events[0]);
      SignedStayIsOver(t, events[0]);
      StepKeepsInv(t, events[0]);
      StepRaises(t, events[0]);
      RunRaises(u, events[1..]);
      SignedResponseStands(u, events[1..]);
    }
  }

  // ----- exactly when an instance may come back -----

  /** What the activity promises after `p`, once it has come to `q`. */
  predicate Lawful(p: V.Phone, q: V.Phone) {
    && W.Once(q.log)
    && W.Alternates(q.answers)
    && (V.SignedIn(p.log, p.mailbox.writes) && q.mailbox.writes == p.mailbox.writes ==> q.mailbox.response == p.mailbox.response)
  }

  lemma CarefulIsLawful(t: Stack, events: seq<Event>)
    requires Inv(t) && Careful(t, events)
    ensures Lawful(t.phone, Run(t, events).phone)
  {
    RunKeepsInv(t, events);
    if V.SignedIn(t.phone.log, t.phone.mailbox.writes) && Run(t, events).phone.mailbox.writes == t.phone.mailbox.writes {
      SignedResponseStands(t, events);
    }
  }

  // Runs in which one instance acts.

  function AllHere(events: seq<V.Event>): seq<Event> {
    seq(|events|, i requires 0 <= i < |events| => Here(events[i]))
  }

  lemma {:induction false} RunHere(t: Stack, events: seq<V.Event>)
    ensures Run(t, AllHere(events)) == t.(phone := V.Run(t.phone, events)) && Careful(t, AllHere(events))
    decreases |events|
  {
    if events != [] {
      assert AllHere(events)[1..] == AllHere(events[1..]);
      RunHere(t.(phone := V.Step(t.phone, events[0])), events[1..]);
    }
  }

  lemma {:induction false} StackAppend(t: Stack, a: seq<Event>, b: seq<Event>)
    ensures Run(t, a + b) == Run(Run(t, a), b)
    decreases |a|
  {
    if a == [] {
      assert a + b == b;
    } else {
      assert (a + b)[1..] == a[1..] + b;
      StackAppend(Step(t, a[0]), a[1..], b);
    }
  }

  /** A request that is up for approval can always come to be declined. */
  lemma DeclineFollows(p: V.Phone, o: V.Offer) returns (events: seq<V.Event>)
    requires W.Sound(p) && p.polling.None? && V.Current(p.screen) == Some(o)
    ensures var q, response := V.Run(p, events), M.DeclinedResponse(V.Asked(o).requestId);
            && q.mailbox.response == Some(response) && q.answers == p.answers + [response]
            && q.mailbox.writes == p.mailbox.writes
  {
    if p.screen.active.Some? {
      events := [V.Declined(p.screen.active.value.serial)];
    } else {
      var left := if V.HasExpired(p, o) then 0 else o.challenge.deadline - p.mailbox.now;
      events := [V.Start, V.Prepare(false, true), V.Delivered(M.Tick(left)), V.Press];
      PressingLateDeclines(p, o, left);
    }
  }

  lemma First(p: V.Phone, e: V.Event, rest: seq<V.Event>)
    ensures V.Run(p, [e] + rest) == V.Run(V.Step(p, e), rest)
  {
    assert ([e] + rest)[1..] == rest;
  }

  lemma Two(p: V.Phone, a: V.Event, b: V.Event)
    ensures V.Run(p, [a, b]) == V.Step(V.Step(p, a), b)
  {
    First(p, a, [b]);
    First(V.Step(p, a), b, []);
    assert [a] + [b] == [a, b] && [b] + [] == [b];
  }

  lemma Four(p: V.Phone, a: V.Event, b: V.Event, c: V.Event, d: V.Event)
    ensures V.Run(p, [a, b, c, d]) == V.Step(V.Step(V.Step(V.Step(p, a), b), c), d)
  {
    RunAppend(p, [a, b], [c, d]);
    Two(p, a, b);
    Two(V.Run(p, [a, b]), c, d);
    assert [a, b] + [c, d] == [a, b, c, d];
  }

  /** The first button press on an instance that is back in the foreground. */
  function Ready(s: V.Screen): V.Screen {
    s.(stopped := false, busy := false, keyed := true)
  }

  lemma Readies(p: V.Phone)
    requires p.polling.None?
    ensures V.Step(V.Step(p, V.Start), V.Prepare(false, true)) == p.(screen := Ready(p.screen))
  {
  }

  lemma LatePress(p: V.Phone, o: V.Offer)
    requires p.screen.active.None? && p.screen.pending == Some(o) && p.screen.awaiting.None? && V.HasExpired(p, o)
    requires p.screen == Ready(p.screen)
    ensures V.PressButton(p) == V.Cancel(p)
    ensures var response := M.DeclinedResponse(V.Asked(o).requestId);
            V.Cancel(p).mailbox == p.mailbox.(response := Some(response)) && V.Cancel(p).answers == p.answers + [response]
  {
  }

  lemma PressingLateDeclines(p: V.Phone, o: V.Offer, left: nat)
    requires W.Sound(p) && p.polling.None? && p.screen.active.None? && p.screen.pending == Some(o)
    requires p.mailbox.now + left >= o.challenge.deadline
    ensures var q, response := V.Run(p, [V.Start, V.Prepare(false, true), V.Delivered(M.Tick(left)), V.Press]), M.DeclinedResponse(V.Asked(o).requestId);
            && q.mailbox.response == Some(response) && q.answers == p.answers + [response]
            && q.mailbox.writes == p.mailbox.writes
  {
    var q := p.(screen := Ready(p.screen));
    var r := q.(mailbox := p.mailbox.(now := p.mailbox.now + left));
    Four(p, V.Start, V.Prepare(false, true), V.Delivered(M.Tick(left)), V.Press);
    Readies(p);
    Ticks(q, left);
    LatePress(r, o);
    assert V.Step(r, V.Press) == V.PressButton(r);
  }

  lemma Delivers(p: V.Phone, e: M.Event)
    requires !e.Answers?
    ensures V.Step(p, V.Delivered(e)) == p.(mailbox := M.Step(p.mailbox, e))
  {
  }

  lemma Ticks(p: V.Phone, time: nat)
    ensures V.Step(p, V.Delivered(M.Tick(time))) == p.(mailbox := p.mailbox.(now := p.mailbox.now + time))
  {
  }

  lemma {:induction false} RunAppend(p: V.Phone, a: seq<V.Event>, b: seq<V.Event>)
    ensures V.Run(p, a + b) == V.Run(V.Run(p, a), b)
    decreases |a|
  {
    if a == [] {
      assert a + b == b;
    } else {
      assert (a + b)[1..] == a[1..] + b;
      RunAppend(V.Step(p, a[0]), a[1..], b);
    }
  }

  /** The fingerprint signs the prompted attempt. */
  lemma PromptedSigns(p: V.Phone, a: V.Attempt)
    requires p.polling.None? && p.screen.active == Some(a) && a.shown.Some? && !p.screen.stopped
    requires !V.HasExpired(p, a.offer) && M.Canceled(V.Asked(a.offer), p.mailbox.cancel).No?
    ensures var q := V.Step(p, V.Succeeded(a.serial, true, 0, true));
            && q.log == p.log + [V.Signing(V.Asked(a.offer), a.offer.stay, a.serial, p.mailbox.now, a.shown.value)]
            && V.Step(q, V.Start).log == q.log
  {
  }

  /** An active attempt in time, with no withdrawal in the mailbox, can be signed. */
  lemma ActiveSigns(p: V.Phone, a: V.Attempt) returns (events: seq<V.Event>)
    requires p.polling.None? && p.screen.active == Some(a)
    requires !V.HasExpired(p, a.offer) && M.Canceled(V.Asked(a.offer), p.mailbox.cancel).No?
    ensures |V.Run(p, events).log| == |p.log| + 1 && p.log <= V.Run(p, events).log
    ensures V.Run(p, events).log[|p.log|].stay == a.offer.stay
  {
    events := [V.Start, V.Prompt(a.serial, true), V.Succeeded(a.serial, true, 0, true), V.Start];
    Four(p, V.Start, V.Prompt(a.serial, true), V.Succeeded(a.serial, true, 0, true), V.Start);
    PromptedSigns(V.Step(V.Step(p, V.Start), V.Prompt(a.serial, true)), a.(shown := Some(V.Asked(a.offer).command)));
  }

  lemma PressBegins(p: V.Phone, o: V.Offer)
    requires p.screen.active.None? && p.screen.pending == Some(o) && p.screen.awaiting.None? && !V.HasExpired(p, o)
    requires p.polling.None? && p.screen == Ready(p.screen)
    ensures V.Step(p, V.Press) ==
              p.(screen := p.screen.(active := Some(V.Attempt(o, p.screen.attempts, None)), timer := true, attempts := p.screen.attempts + 1))
  {
  }

  lemma ReadySigns(p: V.Phone, o: V.Offer) returns (events: seq<V.Event>)
    requires p.screen.active.None? && p.screen.pending == Some(o) && p.screen.awaiting.None?
    requires p.polling.None? && p.screen == Ready(p.screen)
    requires !V.HasExpired(p, o) && M.Canceled(V.Asked(o), p.mailbox.cancel).No?
    ensures |V.Run(p, events).log| == |p.log| + 1 && p.log <= V.Run(p, events).log
    ensures V.Run(p, events).log[|p.log|].stay == o.stay
  {
    PressBegins(p, o);
    var rest := ActiveSigns(V.Step(p, V.Press), V.Attempt(o, p.screen.attempts, None));
    First(p, V.Press, rest);
    events := [V.Press] + rest;
  }

  lemma OfferSigns(p: V.Phone, o: V.Offer) returns (events: seq<V.Event>)
    requires W.Sound(p) && p.polling.None? && V.Current(p.screen) == Some(o)
    requires !V.HasExpired(p, o) && M.Canceled(V.Asked(o), p.mailbox.cancel).No?
    ensures |V.Run(p, events).log| == |p.log| + 1 && p.log <= V.Run(p, events).log
    ensures V.Run(p, events).log[|p.log|].stay == o.stay
  {
    if p.screen.active.Some? {
      events := ActiveSigns(p, p.screen.active.value);
    } else {
      var q := p.(screen := Ready(p.screen));
      Two(p, V.Start, V.Prepare(false, true));
      Readies(p);
      var rest := ReadySigns(q, o);
      RunAppend(p, [V.Start, V.Prepare(false, true)], rest);
      events := [V.Start, V.Prepare(false, true)] + rest;
    }
  }

  // A request of the same machine that displaces the one in the slot.

  function Next(m: M.Mailbox, o: V.Offer): M.Envelope
    requires m.request.Some?
  {
    var e := o.challenge.envelope;
    e.(payload := e.payload.(requestId := m.request.value.payload.requestId + e.payload.requestId + 1, issued := m.now, expires := m.now + M.WINDOW))
  }

  function Withdrawal(e: M.Envelope): M.Withdrawal {
    M.Withdrawal(e.payload.machine, e.payload.requestId, e.payload.machine, e.payload.phoneKey, e.payload)
  }

  function Withdraw(e: M.Envelope): M.Event {
    M.Lan(e.machineKey, e.machineKey, M.WriteCancel(e.payload.requestId, Withdrawal(e)))
  }

  function Install(e: M.Envelope): M.Event {
    M.Lan(e.machineKey, e.machineKey, M.WriteRequest(e.payload.requestId, e))
  }

  lemma WithdrawalIsWritten(m: M.Mailbox, e: M.Envelope)
    requires W.Installed(m) && m.request == Some(e)
    ensures M.Step(m, Withdraw(e)) == m.(cancel := Some(Withdrawal(e)))
  {
    N.ValidIsGenuine(m, e);
  }

  lemma NextIsInstalled(m: M.Mailbox, o: V.Offer)
    requires W.Installed(m) && W.Vetted(o, m) && m.cancel == Some(Withdrawal(m.request.value))
    ensures M.Step(m, Install(Next(m, o))) == m.(request := Some(Next(m, o)), writes := m.writes + 1)
    ensures W.Installed(m.(request := Some(Next(m, o)), writes := m.writes + 1))
  {
    N.ValidIsGenuine(m, Next(m, o));
    N.ValidIsGenuine(m, m.request.value);
  }

  /** Once another request is in the slot, deliveries can take a withdrawal of `o` out of the
      mailbox. */
  lemma WithdrawalIsReplaced(p: V.Phone, o: V.Offer) returns (events: seq<V.Event>)
    requires W.Vetted(o, p.mailbox) && W.Installed(p.mailbox)
    ensures var q := V.Run(p, events);
            && q.log == p.log && q.screen == p.screen && q.polling == p.polling && q.mailbox.now == p.mailbox.now
            && M.Canceled(V.Asked(o), q.mailbox.cancel).No?
  {
    var m, e, f := p.mailbox, p.mailbox.request.value, Next(p.mailbox, o);
    Replaces(m, o);
    events := [V.Delivered(Withdraw(e)), V.Delivered(Install(f)), V.Delivered(Withdraw(f)), V.Delivered(M.Tick(0))];
    Four(p, V.Delivered(Withdraw(e)), V.Delivered(Install(f)), V.Delivered(Withdraw(f)), V.Delivered(M.Tick(0)));
    Delivers(p, Withdraw(e));
    var q := p.(mailbox := M.Step(m, Withdraw(e)));
    Delivers(q, Install(f));
    var r := q.(mailbox := M.Step(q.mailbox, Install(f)));
    Delivers(r, Withdraw(f));
    Ticks(r.(mailbox := M.Step(r.mailbox, Withdraw(f))), 0);
  }

  lemma Replaces(m: M.Mailbox, o: V.Offer)
    requires W.Vetted(o, m) && W.Installed(m)
    ensures var n := M.Step(M.Step(M.Step(m, Withdraw(m.request.value)), Install(Next(m, o))), Withdraw(Next(m, o)));
            n.now == m.now && M.Canceled(V.Asked(o), n.cancel).No?
  {
    var e, f := m.request.value, Next(m, o);
    var a := m.(cancel := Some(Withdrawal(e)));
    WithdrawalIsWritten(m, e);
    NextIsInstalled(a, o);
    WithdrawalIsWritten(a.(request := Some(f), writes := a.writes + 1), f);
  }

  lemma SignatureFollows(p: V.Phone, o: V.Offer) returns (events: seq<V.Event>)
    requires W.Sound(p) && p.polling.None? && V.Current(p.screen) == Some(o) && !V.HasExpired(p, o) && o.stay < p.mailbox.writes
    ensures |V.Run(p, events).log| == |p.log| + 1 && p.log <= V.Run(p, events).log
    ensures V.Run(p, events).log[|p.log|].stay == o.stay
  {
    var first := WithdrawalIsReplaced(p, o);
    W.RunKeepsSound(p, first);
    var second := OfferSigns(V.Run(p, first), o);
    RunAppend(p, first, second);
    events := first + second;
  }

  /** An instance that is not harmless can break a promise. */
  lemma HarmFollows(p: V.Phone, s: V.Screen) returns (events: seq<V.Event>)
    requires W.Inv(p) && p.polling.None? && W.Steady(s, p.mailbox) && !Harmless(s, p)
    ensures !Lawful(p.(screen := s), V.Run(p.(screen := s), events))
  {
    var q, o := p.(screen := s), V.Current(s).value;
    SwapKeepsSound(p, s);
    if W.Answers(p.mailbox.response, V.Asked(o).requestId) || V.SignedIn(p.log, p.mailbox.writes) {
      events := DeclineFollows(q, o);
      DeclineBreaks(q, V.Run(q, events), o);
    } else {
      events := SignatureFollows(q, o);
      SignatureBreaks(q, V.Run(q, events), o);
    }
  }

  lemma DeclineBreaks(p: V.Phone, q: V.Phone, o: V.Offer)
    requires W.Recorded(p.answers, p.mailbox.response)
    requires W.Answers(p.mailbox.response, V.Asked(o).requestId) || V.SignedIn(p.log, p.mailbox.writes)
    requires var response := M.DeclinedResponse(V.Asked(o).requestId);
             q.mailbox.response == Some(response) && q.answers == p.answers + [response]
    requires q.mailbox.writes == p.mailbox.writes
    ensures !Lawful(p, q)
  {
    if W.Answers(p.mailbox.response, V.Asked(o).requestId) {
      var i := |p.answers|;
      assert q.answers[i].requestId == q.answers[i - 1].requestId;
    }
  }

  lemma SignatureBreaks(p: V.Phone, q: V.Phone, o: V.Offer)
    requires V.SignedIn(p.log, o.stay)
    requires |q.log| == |p.log| + 1 && p.log <= q.log && q.log[|p.log|].stay == o.stay
    ensures !Lawful(p, q)
  {
    var i :| 0 <= i < |p.log| && p.log[i].stay == o.stay;
    assert q.log[i].stay == q.log[|p.log|].stay;
  }

  /** After the return of an instance every careful run keeps every promise, exactly if it
      was harmless when it came back. */
  lemma ReturnIsLawfulExactlyIfHarmless(t: Stack, k: nat, closed: bool)
    requires Inv(t) && t.phone.polling.None? && k < |t.covered|
    ensures var u := Step(t, Return(k, closed));
            (forall events: seq<Event> :: Careful(u, events) ==> Lawful(u.phone, Run(u, events).phone)) <==> Harmless(t.covered[k], t.phone)
  {
    var u := Step(t, Return(k, closed));
    if Harmless(t.covered[k], t.phone) {
      StepKeepsInv(t, Return(k, closed));
      forall events: seq<Event> | Careful(u, events)
        ensures Lawful(u.phone, Run(u, events).phone)
      {
        CarefulIsLawful(u, events);
      }
    } else {
      var events := HarmFollows(t.phone, t.covered[k]);
      RunHere(u, events);
      assert !Lawful(u.phone, Run(u, AllHere(events)).phone);
    }
  }
}
