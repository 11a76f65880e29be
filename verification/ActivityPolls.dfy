/** What each poll and each callback of the activity comes to: what is offered, declined,
    signed and waited for, and until when. */
module ActivityPolls {
  import opened Protocol
  import M = MailboxSteps
  import opened ActivitySteps
  import W = ActivityProofs

  predicate Late(p: Phone, o: Offer) {
    p.mailbox.now >= o.challenge.deadline
  }

  function Decline(o: Offer): M.Response {
    M.DeclinedResponse(Asked(o).requestId)
  }

  // ----- callbacks -----

  predicate Attempted(p: Phone, serial: nat) {
    p.screen.active.Some? && p.screen.active.value.serial == serial
  }

  /** The button is pressed on a request, with the key ready and nothing else going on. */
  predicate Presses(p: Phone, e: Event) {
    && e.Press? && p.screen.keyed && !p.screen.busy && !p.screen.stopped && p.screen.active.None? && p.screen.pending.Some?
    && !(p.screen.awaiting.Some? && Asked(p.screen.awaiting.value).kdeRoute)
  }

  /** The fingerprint of the prompted attempt, in the foreground, in time and not withdrawn. */
  predicate Signs(p: Phone, e: Event) {
    && e.Succeeded? && Attempted(p, e.serial) && !p.screen.stopped && e.authorized
    && p.screen.active.value.shown.Some?
    && !Late(p, p.screen.active.value.offer)
    && M.Canceled(Asked(p.screen.active.value.offer), p.mailbox.cancel).No?
  }

  /** What ends the approval without a signature. */
  predicate Declines(p: Phone, e: Event) {
    match e
    case Press => Presses(p, e) && Late(p, p.screen.pending.value)
    case Prompt(serial, shown) => Attempted(p, serial) && !p.screen.stopped && (Late(p, p.screen.active.value.offer) || !shown)
    case Succeeded(serial, _, _, _) => Attempted(p, serial) && !p.screen.stopped && !Signs(p, e)
    case Declined(serial) => Attempted(p, serial)
    case Failed(serial) => Attempted(p, serial) && !p.screen.stopped
    case Timeout => p.screen.timer && Current(p.screen).Some?
    case Stop => p.screen.active.Some?
    case _ => false
  }

  /** The signature was still in time when it was made. */
  predicate Publishes(p: Phone, e: Event) {
    Signs(p, e) && e.verified && p.mailbox.now + e.took < p.screen.active.value.offer.challenge.deadline
  }

  predicate Begins(p: Phone, e: Event) {
    Presses(p, e) && !Late(p, p.screen.pending.value)
  }

  predicate Shows(p: Phone, e: Event) {
    e.Prompt? && Attempted(p, e.serial) && !p.screen.stopped && !Declines(p, e)
  }

  function Written(p: Phone, e: Event): seq<M.Response> {
    if Publishes(p, e) then
      var o := p.screen.active.value.offer;
      [M.SignedResponse(Asked(o).requestId, Asked(o), |p.log|)]
    else if Signs(p, e) || Declines(p, e) then
      if Current(p.screen).Some? then [Decline(Current(p.screen).value)] else []
    else []
  }

  /** What is written, signed and kept. */
  predicate Recorded(p: Phone, e: Event, q: Phone) {
    && q.answers == p.answers + Written(p, e)
    && q.mailbox.response == (if Written(p, e) == [] then p.mailbox.response else Some(Written(p, e)[0]))
    && q.mailbox == p.mailbox.(response := q.mailbox.response, now := p.mailbox.now + if Signs(p, e) then e.took else 0)
    && q.log == p.log + (if Signs(p, e) then [W.Use(p, e.serial)] else [])
  }

  /** What is up for approval, and what is waited for. */
  predicate Offered(p: Phone, e: Event, q: Phone) {
    var over := Signs(p, e) || Declines(p, e) || e.Create?;
    && q.screen.pending == (if over then None else p.screen.pending)
    && q.screen.active == (if over then None
                           else if Begins(p, e) then Some(Attempt(p.screen.pending.value, p.screen.attempts, None))
                           else if Shows(p, e) then Some(p.screen.active.value.(shown := Some(Asked(p.screen.active.value.offer).command)))
                           else p.screen.active)
    && q.screen.awaiting == (if Publishes(p, e) then Some(p.screen.active.value.offer) else if e.Create? then None else p.screen.awaiting)
    && q.screen.signedResponse == (if Publishes(p, e) then Some(Written(p, e)[0]) else if e.Create? then None else p.screen.signedResponse)
  }

  predicate Unshown(s: Screen, id: Option<nat>) {
    && id.Some?
    && (s.pending.Some? ==> Asked(s.pending.value).requestId != id.value)
    && (s.awaiting.Some? ==> Asked(s.awaiting.value).requestId != id.value)
  }

  /** The rest of the screen. */
  predicate Displayed(p: Phone, e: Event, q: Phone) {
    && q.screen.stopped == (if e.Start? then false else if e.Stop? || e.Create? then true else p.screen.stopped)
    && q.screen.keyed == (if e.Prepare? then e.keyed else if e.Create? then false else p.screen.keyed)
    && q.screen.busy == (if e.Prepare? then e.busy else if e.Create? then false else p.screen.busy || (e.Press? && !p.screen.keyed && !p.screen.stopped))
    && q.screen.timer == (if Begins(p, e) then true else if Signs(p, e) || Declines(p, e) || e.Create? || e.Timeout? then false else p.screen.timer)
    && q.screen.seen == (if e.Create? || (e.NewIntent? && Unshown(p.screen, e.id)) then None else p.screen.seen)
    && q.screen.openedId == (if e.Create? || (e.NewIntent? && Unshown(p.screen, e.id)) then e.id else if e.NewIntent? then None else p.screen.openedId)
    && q.screen.attempts == p.screen.attempts + (if Begins(p, e) then 1 else 0)
  }

  predicate Callback(e: Event) {
    !e.Delivered? && !e.PollRead? && !e.PollFinish?
  }

  predicate Accounted(p: Phone, e: Event, q: Phone) {
    Recorded(p, e, q) && Offered(p, e, q) && Displayed(p, e, q) && q.polling == p.polling
  }

  lemma CreationIsAccounted(p: Phone, id: Option<nat>)
    requires W.Steady(p.screen, p.mailbox)
    ensures Accounted(p, Create(id), Act(p, Create(id)))
  {
  }

  lemma OpeningIsAccounted(p: Phone, id: Option<nat>, s: Screen)
    requires s == if Unshown(p.screen, id) then p.screen.(openedId := id, seen := None) else p.screen.(openedId := None)
    ensures Accounted(p, NewIntent(id), p.(screen := s))
  {
  }

  lemma IntentIsAccounted(p: Phone, id: Option<nat>)
    requires W.Steady(p.screen, p.mailbox)
    ensures Accounted(p, NewIntent(id), Act(p, NewIntent(id)))
  {
    OpeningIsAccounted(p, id, Open(p.screen, id));
  }

  lemma PreparationIsAccounted(p: Phone, busy: bool, keyed: bool)
    requires W.Steady(p.screen, p.mailbox)
    ensures Accounted(p, Prepare(busy, keyed), Act(p, Prepare(busy, keyed)))
  {
  }

  lemma PressIsAccounted(p: Phone)
    requires W.Steady(p.screen, p.mailbox)
    ensures Accounted(p, Press, Act(p, Press))
  {
  }

  lemma PromptIsAccounted(p: Phone, serial: nat, shown: bool)
    requires W.Steady(p.screen, p.mailbox)
    ensures Accounted(p, Prompt(serial, shown), Act(p, Prompt(serial, shown)))
  {
    var e := Prompt(serial, shown);
    if Declines(p, e) {
      RefusalIsAccounted(p, e);
    } else if Shows(p, e) {
      ShowingIsAccounted(p, serial, shown);
    } else {
      NothingIsAccounted(p, e);
    }
  }

  lemma ShowingIsAccounted(p: Phone, serial: nat, shown: bool)
    requires Shows(p, Prompt(serial, shown))
    ensures Accounted(p, Prompt(serial, shown), ShowPrompt(p, serial, shown))
  {
  }

  lemma CompletionIs(p: Phone, serial: nat, authorized: bool, took: nat, verified: bool)
    ensures var e := Succeeded(serial, authorized, took, verified);
            Complete(p, serial, authorized, took, verified) ==
              if Signs(p, e) then Sign(p, p.screen.active.value.offer, p.screen.active.value.shown.value, serial, took, verified)
              else if Declines(p, e) then Cancel(p) else p
  {
  }

  lemma SignatureIsAccounted(p: Phone, serial: nat, authorized: bool, took: nat, verified: bool)
    requires W.Steady(p.screen, p.mailbox) && Signs(p, Succeeded(serial, authorized, took, verified))
    ensures Accounted(p, Succeeded(serial, authorized, took, verified),
                      Sign(p, p.screen.active.value.offer, p.screen.active.value.shown.value, serial, took, verified))
  {
  }

  lemma RefusalIsAccounted(p: Phone, e: Event)
    requires Declines(p, e) && (e.Succeeded? || e.Prompt? || e.Declined? || e.Failed? || e.Press?)
    ensures Accounted(p, e, Cancel(p))
  {
  }

  lemma NothingIsAccounted(p: Phone, e: Event)
    requires !Declines(p, e) && !Signs(p, e) && !Begins(p, e) && !Shows(p, e)
    requires e.Succeeded? || e.Prompt? || e.Declined? || e.Failed? || (e.Press? && (p.screen.keyed || p.screen.stopped))
    ensures Accounted(p, e, p)
  {
  }

  lemma CompletionIsAccounted(p: Phone, serial: nat, authorized: bool, took: nat, verified: bool)
    requires W.Steady(p.screen, p.mailbox)
    ensures Accounted(p, Succeeded(serial, authorized, took, verified), Act(p, Succeeded(serial, authorized, took, verified)))
  {
    var e := Succeeded(serial, authorized, took, verified);
    CompletionIs(p, serial, authorized, took, verified);
    if Signs(p, e) {
      SignatureIsAccounted(p, serial, authorized, took, verified);
    } else if Declines(p, e) {
      RefusalIsAccounted(p, e);
    } else {
      NothingIsAccounted(p, e);
    }
  }

  lemma DeclineIsAccounted(p: Phone, serial: nat)
    requires W.Steady(p.screen, p.mailbox)
    ensures Accounted(p, Declined(serial), Act(p, Declined(serial)))
  {
    if Declines(p, Declined(serial)) {
      RefusalIsAccounted(p, Declined(serial));
    } else {
      NothingIsAccounted(p, Declined(serial));
    }
  }

  lemma FailureIsAccounted(p: Phone, serial: nat)
    requires W.Steady(p.screen, p.mailbox)
    ensures Accounted(p, Failed(serial), Act(p, Failed(serial)))
  {
    if Declines(p, Failed(serial)) {
      RefusalIsAccounted(p, Failed(serial));
    } else {
      NothingIsAccounted(p, Failed(serial));
    }
  }

  lemma TimeoutIsAccounted(p: Phone)
    requires W.Steady(p.screen, p.mailbox)
    ensures Accounted(p, Timeout, Act(p, Timeout))
  {
  }

  lemma StartIsAccounted(p: Phone)
    requires W.Steady(p.screen, p.mailbox)
    ensures Accounted(p, Start, Act(p, Start))
  {
  }

  lemma StopIsAccounted(p: Phone)
    requires W.Steady(p.screen, p.mailbox)
    ensures Accounted(p, Stop, Act(p, Stop))
  {
  }

  /** Each callback writes, signs, offers and shows exactly what is due. */
  lemma CallbackIsAccounted(p: Phone, e: Event)
    requires W.Steady(p.screen, p.mailbox) && Callback(e)
    ensures Accounted(p, e, Act(p, e))
  {
    match e {
      case Create(id) => CreationIsAccounted(p, id);
      case NewIntent(id) => IntentIsAccounted(p, id);
      case Prepare(busy, keyed) => PreparationIsAccounted(p, busy, keyed);
      case Press => PressIsAccounted(p);
      case Prompt(serial, shown) => PromptIsAccounted(p, serial, shown);
      case Succeeded(serial, authorized, took, verified) => CompletionIsAccounted(p, serial, authorized, took, verified);
      case Declined(serial) => DeclineIsAccounted(p, serial);
      case Failed(serial) => FailureIsAccounted(p, serial);
      case Timeout => TimeoutIsAccounted(p);
      case Start => StartIsAccounted(p);
      case Stop => StopIsAccounted(p);
    }
  }

  /** A poll starts exactly in the foreground, with the key ready and nothing else going on, by
      reading the request file; a delivery touches nothing but the mailbox. */
  lemma OtherEventsAreAccounted(p: Phone, e: M.Event)
    requires !e.Answers?
    ensures Step(p, PollRead) ==
              if p.polling.None? && !p.screen.stopped && !p.screen.busy && p.screen.keyed
              then p.(polling := Some(Snapshot(p.mailbox.request, p.mailbox.writes))) else p
    ensures Step(p, Delivered(e)) == p.(mailbox := M.Step(p.mailbox, e))
  {
  }

  // ----- a poll that finds nothing new -----

  predicate FindsNew(p: Phone)
    requires p.polling.Some?
  {
    p.polling.value.request.Some? && p.polling.value.request != p.screen.seen
  }

  /** The wait for the computer's confirmation is over. */
  predicate WaitEnds(p: Phone, o: Offer, found: Findings) {
    !found.stillWithdrawn.No? || !found.receipt.No? || p.mailbox.now >= o.challenge.deadline + 15000
  }

  /** A poll of what is on the screen already declines what has expired or was withdrawn. */
  predicate PollDeclines(p: Phone, found: Findings) {
    p.screen.pending.Some? && (Late(p, p.screen.pending.value) || found.stillWithdrawn.Yes?)
  }

  predicate Answered(p: Phone, q: Phone, written: seq<M.Response>) {
    && q.answers == p.answers + written && q.log == p.log
    && q.mailbox == p.mailbox.(response := if written == [] then p.mailbox.response else Some(written[|written| - 1]))
  }

  predicate SeenAccounted(p: Phone, found: Findings, q: Phone) {
    var declines := PollDeclines(p, found);
    && Answered(p, q, if declines then [Decline(p.screen.pending.value)] else [])
    && q.screen.pending == (if declines || found.stillWithdrawn.Throws? then None else p.screen.pending)
    && q.screen.active == (if declines then None else p.screen.active)
    && q.screen.awaiting == (if p.screen.awaiting.Some? && WaitEnds(p, p.screen.awaiting.value, found) then None else p.screen.awaiting)
    && q.screen.seen == p.screen.seen && q.screen.openedId == p.screen.openedId && q.screen.signedResponse == p.screen.signedResponse
  }

  lemma PendingReviewed(p: Phone, found: Findings)
    requires W.Steady(p.screen, p.mailbox) && p.screen.pending.Some?
    ensures SeenAccounted(p, found, Review(p, found))
  {
    if PollDeclines(p, found) {
      assert Review(p, found) == Cancel(p) || Review(p, found) == Cancel(p).(screen := Cancel(p).screen.(awaiting := None));
    } else if found.stillWithdrawn.Throws? {
      assert Review(p, found) == Abandon(p);
    } else {
      assert Review(p, found) == p;
    }
  }

  lemma AwaitingReviewed(p: Phone, found: Findings)
    requires W.Steady(p.screen, p.mailbox) && p.screen.pending.None?
    ensures SeenAccounted(p, found, Review(p, found))
  {
  }

  lemma SeenPollIsAccounted(p: Phone, found: Findings)
    requires W.Steady(p.screen, p.mailbox) && p.polling.Some? && !FindsNew(p)
    ensures SeenAccounted(p, found, Step(p, PollFinish(found))) && Step(p, PollFinish(found)).polling.None?
  {
    if p.screen.pending.Some? {
      PendingReviewed(p, found);
    } else {
      AwaitingReviewed(p, found);
    }
  }

  // ----- a poll that finds a new request -----

  /** What the response file says once the request before has been declined. */
  function Standing(p: Phone): Option<M.Response> {
    if Current(p.screen).Some? then Some(Decline(Current(p.screen).value)) else p.mailbox.response
  }

  /** The new request passes every check, and is not one the owner did not ask for, nor
      withdrawn. */
  predicate Accepts(p: Phone, e: M.Envelope, found: Findings) {
    && M.Validate(p.mailbox, e, false).Valid?
    && (p.screen.openedId.Some? ==> p.screen.openedId.value == e.payload.requestId)
    && found.withdrawn.No? && found.icon
  }

  predicate Unanswered(p: Phone, e: M.Envelope) {
    Standing(p).Some? ==> Standing(p).value.requestId != e.payload.requestId
  }

  /** It was signed before, by this key and as it is. */
  predicate SignedBefore(p: Phone, e: M.Envelope) {
    && Standing(p).Some? && Standing(p).value.SignedResponse? && Standing(p).value.requestId == e.payload.requestId
    && Standing(p).value.payload == e.payload
    && Standing(p).value.signature < |p.log| && p.log[Standing(p).value.signature].payload == e.payload
  }

  function Found(p: Phone, e: M.Envelope, stay: nat): Offer
    requires M.Validate(p.mailbox, e, false).Valid?
  {
    Offer(M.Validate(p.mailbox, e, false).challenge, stay)
  }

  predicate NewAccounted(p: Phone, e: M.Envelope, stay: nat, found: Findings, q: Phone) {
    var before := if Current(p.screen).Some? then [Decline(Current(p.screen).value)] else [];
    var after := if Accepts(p, e, found) && Unanswered(p, e) && found.stillWithdrawn.Yes? then [Decline(Found(p, e, stay))] else [];
    && Answered(p, q, before + after)
    && q.screen.seen == Some(e) && q.screen.active.None?
    && q.screen.openedId == (if M.Validate(p.mailbox, e, false).Valid? then None else p.screen.openedId)
    && q.screen.pending == (if Accepts(p, e, found) && Unanswered(p, e) && found.stillWithdrawn.No? then Some(Found(p, e, stay)) else None)
    && q.screen.awaiting ==
         (if Accepts(p, e, found) && SignedBefore(p, e) && !WaitEnds(p, Found(p, e, stay), found) then Some(Found(p, e, stay)) else None)
    && q.screen.signedResponse == (if Accepts(p, e, found) && SignedBefore(p, e) then Standing(p) else p.screen.signedResponse)
  }

  /** The poll lets go of what it showed before it looks at the new request. */
  lemma LettingGo(p: Phone, snapshot: Snapshot)
    ensures var q := W.LetGo(p, snapshot);
            && q.mailbox == p.mailbox.(response := Standing(p)) && q.log == p.log
            && q.answers == p.answers + (if Current(p.screen).Some? then [Decline(Current(p.screen).value)] else [])
            && q.screen.pending.None? && q.screen.active.None? && q.screen.awaiting.None? && q.screen.seen == snapshot.request
            && q.screen.openedId == p.screen.openedId && q.screen.signedResponse == p.screen.signedResponse
  {
  }

  lemma ValidityIgnoresResponses(m: M.Mailbox, response: Option<M.Response>, e: M.Envelope)
    ensures M.Validate(m.(response := response), e, false) == M.Validate(m, e, false)
  {
  }

  /** The screen has been cleared for the request `e`. */
  predicate Cleared(p: Phone, e: M.Envelope) {
    Current(p.screen).None? && p.screen.awaiting.None? && p.screen.seen == Some(e)
  }

  function Polled(looked: Poll, found: Findings): Phone {
    if looked.Through? then Review(looked.phone, found) else looked.phone
  }

  lemma RefusedIsAccounted(p: Phone, e: M.Envelope, stay: nat, found: Findings)
    requires Cleared(p, e) && !Accepts(p, e, found)
    ensures NewAccounted(p, e, stay, found, Polled(Consider(p, e, stay, found), found))
  {
    RefusalIs(p, e, stay, found);
  }

  lemma RefusalIs(p: Phone, e: M.Envelope, stay: nat, found: Findings)
    requires !Accepts(p, e, found)
    ensures var r := if M.Validate(p.mailbox, e, false).Valid? then p.(screen := p.screen.(openedId := None)) else p;
            Consider(p, e, stay, found) == Done(r) || Consider(p, e, stay, found) == Done(Abandon(r))
  {
  }

  lemma AcceptedIsSorted(p: Phone, e: M.Envelope, stay: nat, found: Findings)
    requires Cleared(p, e) && Accepts(p, e, found)
    ensures Consider(p, e, stay, found) == Sort(p.(screen := p.screen.(openedId := None)), Found(p, e, stay))
    ensures Found(p, e, stay).challenge.envelope == e && Found(p, e, stay).challenge.deadline > p.mailbox.now
  {
  }

  lemma UnansweredIsAccounted(p: Phone, e: M.Envelope, stay: nat, found: Findings)
    requires Cleared(p, e) && Accepts(p, e, found) && Unanswered(p, e)
    ensures NewAccounted(p, e, stay, found, Polled(Consider(p, e, stay, found), found))
  {
    var o := Found(p, e, stay);
    var r := p.(screen := p.screen.(openedId := None, pending := Some(o)));
    AcceptedIsSorted(p, e, stay, found);
    assert Consider(p, e, stay, found) == Through(r);
    OfferedIsAccounted(p, r, e, stay, found);
  }

  lemma OfferedIsAccounted(p: Phone, r: Phone, e: M.Envelope, stay: nat, found: Findings)
    requires Cleared(p, e) && Accepts(p, e, found) && Unanswered(p, e)
    requires Found(p, e, stay).challenge.envelope == e && Found(p, e, stay).challenge.deadline > p.mailbox.now
    requires r == p.(screen := p.screen.(openedId := None, pending := Some(Found(p, e, stay))))
    ensures NewAccounted(p, e, stay, found, Review(r, found))
  {
    if found.stillWithdrawn.No? {
      assert Review(r, found) == r;
    } else if found.stillWithdrawn.Throws? {
      assert Review(r, found) == Abandon(r);
    } else {
      assert Review(r, found) == Cancel(r);
    }
  }

  lemma AnsweredIsAccounted(p: Phone, e: M.Envelope, stay: nat, found: Findings)
    requires Cleared(p, e) && Accepts(p, e, found) && !Unanswered(p, e)
    ensures NewAccounted(p, e, stay, found, Polled(Consider(p, e, stay, found), found))
  {
    var r := p.(screen := p.screen.(openedId := None));
    AcceptedIsSorted(p, e, stay, found);
    if SignedBefore(p, e) {
      ResumedIsAccounted(p, r, e, stay, found);
    } else {
      DroppedIsAccounted(p, r, e, stay, found);
    }
  }

  lemma ResumedIsAccounted(p: Phone, r: Phone, e: M.Envelope, stay: nat, found: Findings)
    requires Cleared(p, e) && Accepts(p, e, found) && SignedBefore(p, e) && r == p.(screen := p.screen.(openedId := None))
    requires Found(p, e, stay).challenge.envelope == e && Found(p, e, stay).challenge.deadline > p.mailbox.now
    ensures NewAccounted(p, e, stay, found, Polled(Sort(r, Found(p, e, stay)), found))
  {
    var o := Found(p, e, stay);
    var t := r.(screen := r.screen.(awaiting := Some(o), signedResponse := Standing(p)));
    assert Sort(r, o) == Through(t);
    assert Review(t, found) == if WaitEnds(p, o, found) then t.(screen := t.screen.(awaiting := None)) else t;
  }

  lemma DroppedIsAccounted(p: Phone, r: Phone, e: M.Envelope, stay: nat, found: Findings)
    requires Cleared(p, e) && Accepts(p, e, found) && !Unanswered(p, e) && !SignedBefore(p, e) && r == p.(screen := p.screen.(openedId := None))
    requires Found(p, e, stay).challenge.envelope == e
    ensures NewAccounted(p, e, stay, found, Polled(Sort(r, Found(p, e, stay)), found))
  {
    assert Polled(Sort(r, Found(p, e, stay)), found) == r;
  }

  /** What becomes of a new request, with nothing else on the screen. */
  lemma NewRequestIsAccounted(p: Phone, e: M.Envelope, stay: nat, found: Findings)
    requires Cleared(p, e)
    ensures NewAccounted(p, e, stay, found, Polled(Consider(p, e, stay, found), found))
  {
    if !Accepts(p, e, found) {
      RefusedIsAccounted(p, e, stay, found);
    } else if Unanswered(p, e) {
      UnansweredIsAccounted(p, e, stay, found);
    } else {
      AnsweredIsAccounted(p, e, stay, found);
    }
  }

  lemma NewPollIsAccounted(p: Phone, found: Findings)
    requires p.polling.Some? && FindsNew(p)
    ensures NewAccounted(p, p.polling.value.request.value, p.polling.value.stay, found, Step(p, PollFinish(found)))
    ensures Step(p, PollFinish(found)).polling.None?
  {
    var snapshot := p.polling.value;
    var q := W.LetGo(p, snapshot);
    LettingGo(p, snapshot);
    W.LookIs(p, snapshot, found);
    NewRequestIsAccounted(q, snapshot.request.value, snapshot.stay, found);
    SameAccount(p, q, snapshot.request.value, snapshot.stay, found, Step(p, PollFinish(found)));
  }

  /** The account of the cleared screen is that of the screen before, after its decline. */
  lemma SameAccount(p: Phone, q: Phone, e: M.Envelope, stay: nat, found: Findings, r: Phone)
    requires q.mailbox == p.mailbox.(response := Standing(p)) && q.log == p.log
    requires q.answers == p.answers + (if Current(p.screen).Some? then [Decline(Current(p.screen).value)] else [])
    requires Cleared(q, e) && q.screen.openedId == p.screen.openedId && q.screen.signedResponse == p.screen.signedResponse
    requires NewAccounted(q, e, stay, found, r)
    ensures NewAccounted(p, e, stay, found, r)
  {
    ValidityIgnoresResponses(p.mailbox, Standing(p), e);
    assert Standing(q) == Standing(p);
    assert Accepts(q, e, found) == Accepts(p, e, found);
    assert Unanswered(q, e) == Unanswered(p, e) && SignedBefore(q, e) == SignedBefore(p, e);
  }

  // ----- waiting for the computer -----

  /** A receipt that names this signed request in every field. */
  predicate ConfirmedBy(o: Offer, response: M.Response, r: M.Receipt) {
    && r.requestId == Asked(o).requestId && r.signer == Asked(o).machine && r.approved
    && r.machine == Asked(o).machine && r.phoneKey == Asked(o).phoneKey
    && response.SignedResponse? && r.signature == response.signature
    && (Asked(o).execution.Some? ==> r.pid > 0)
  }

  /** What the poll reads is what the files hold. */
  predicate Truthful(p: Phone, o: Offer, found: Findings) {
    && found.stillWithdrawn == M.Canceled(Asked(o), p.mailbox.cancel)
    && p.screen.signedResponse.Some?
    && found.receipt == M.Receipted(Asked(o), p.screen.signedResponse.value, p.mailbox.receipt)
  }

  /** Neither a withdrawal nor a receipt under its id that does not match it. */
  predicate Undisputed(p: Phone, o: Offer) {
    && (p.mailbox.cancel.Some? ==> p.mailbox.cancel.value.requestId != Asked(o).requestId)
    && (p.mailbox.receipt.Some? && p.mailbox.receipt.value.requestId == Asked(o).requestId ==>
          p.screen.signedResponse.Some? && ConfirmedBy(o, p.screen.signedResponse.value, p.mailbox.receipt.value))
  }

  /** A poll of a signed request that is neither withdrawn nor disputed ends the wait exactly if
      the computer's valid receipt is there or fifteen seconds have passed since its deadline. */
  lemma WaitEndsExactly(p: Phone, found: Findings, o: Offer)
    requires W.Steady(p.screen, p.mailbox) && p.polling.Some? && !FindsNew(p) && p.screen.awaiting == Some(o)
    requires Truthful(p, o, found) && Undisputed(p, o)
    ensures var q := Step(p, PollFinish(found));
            && (q.screen.awaiting.None? <==>
                  (p.mailbox.receipt.Some? && ConfirmedBy(o, p.screen.signedResponse.value, p.mailbox.receipt.value))
                  || p.mailbox.now >= o.challenge.deadline + 15000)
            && (q.screen.awaiting.Some? ==> q.screen.awaiting == Some(o)) && q.mailbox == p.mailbox
  {
    SeenPollIsAccounted(p, found);
  }

  /** Nothing happens that ends the wait for `o`: no new activity, and no poll that finds another
      request, a withdrawal, a receipt, a refused file or the time to be over. */
  predicate Waits(p: Phone, events: seq<Event>, o: Offer)
    decreases |events|
  {
    events != [] ==>
      && !events[0].Create?
      && (events[0].PollFinish? && p.polling.Some? ==> !FindsNew(p) && !WaitEnds(p, o, events[0].found))
      && Waits(Step(p, events[0]), events[1..], o)
  }

  lemma StepWaits(p: Phone, e: Event, o: Offer)
    requires W.Sound(p) && p.screen.awaiting == Some(o) && !e.Create?
    requires e.PollFinish? && p.polling.Some? ==> !FindsNew(p) && !WaitEnds(p, o, e.found)
    ensures Step(p, e).screen.awaiting == Some(o)
  {
    if e.PollFinish? {
      if p.polling.Some? {
        SeenPollIsAccounted(p, e.found);
      }
    } else if Callback(e) && p.polling.None? {
      CallbackIsAccounted(p, e);
    }
  }

  /** Over every run a signed request is waited for until one of these. */
  lemma {:induction false} SignedRequestIsAwaited(p: Phone, events: seq<Event>, o: Offer)
    requires W.Sound(p) && p.screen.awaiting == Some(o) && Waits(p, events, o)
    ensures Run(p, events).screen.awaiting == Some(o)
    decreases |events|
  {
    if events != [] {
      StepWaits(p, events[0], o);
      W.StepKeepsSound(p, events[0]);
      SignedRequestIsAwaited(Step(p, events[0]), events[1..], o);
    }
  }

  /** Only a request that this key has signed is waited for. */
  predicate AwaitsItsOwn(p: Phone) {
    p.screen.awaiting.Some? ==>
      && p.screen.signedResponse.Some? && p.screen.signedResponse.value.SignedResponse?
      && var response := p.screen.signedResponse.value;
         && response.requestId == Asked(p.screen.awaiting.value).requestId
         && response.signature < |p.log| && p.log[response.signature].payload == Asked(p.screen.awaiting.value)
  }

  lemma StepAwaitsItsOwn(p: Phone, e: Event)
    requires W.Sound(p) && AwaitsItsOwn(p)
    ensures AwaitsItsOwn(Step(p, e))
  {
    if e.PollFinish? {
      if p.polling.Some? {
        if FindsNew(p) {
          NewPollIsAccounted(p, e.found);
          FoundIsAsked(p, p.polling.value.request.value, p.polling.value.stay);
        } else {
          SeenPollIsAccounted(p, e.found);
        }
      }
    } else if Callback(e) && p.polling.None? {
      CallbackIsAccounted(p, e);
    }
  }

  lemma FoundIsAsked(p: Phone, e: M.Envelope, stay: nat)
    ensures M.Validate(p.mailbox, e, false).Valid? ==> Asked(Found(p, e, stay)) == e.payload
  {
  }

  lemma {:induction false} RunAwaitsItsOwn(p: Phone, events: seq<Event>)
    requires W.Sound(p) && AwaitsItsOwn(p)
    ensures AwaitsItsOwn(Run(p, events))
    decreases |events|
  {
    if events != [] {
      StepAwaitsItsOwn(p, events[0]);
      W.StepKeepsSound(p, events[0]);
      RunAwaitsItsOwn(Step(p, events[0]), events[1..]);
    }
  }
}
