/** What every order of polls, prompts, fingerprints, timeouts and deliveries keeps while one
    activity acts: first what holds however it came to act, then what holds if no request is
    up for approval in it that has been answered elsewhere. */
module ActivityProofs {
  import opened Protocol
  import M = MailboxSteps
  import N = MailboxProofs
  import opened ActivitySteps

  // ----- whatever else has happened -----

  /** The request in an offer passed every check when it was read. */
  predicate Vetted(o: Offer, m: M.Mailbox) {
    && M.Genuine(m.pairings, m.phoneKey, o.challenge.envelope)
    && o.challenge.deadline <= Asked(o).expires
  }

  /** The request in the slot passed every check when it was installed. */
  predicate Installed(m: M.Mailbox) {
    && m.request.Some?
    && M.Genuine(m.pairings, m.phoneKey, m.request.value)
    && M.Timely(m.request.value.payload, m.now)
  }

  /** What was read in a stay is what the slot held in it. */
  predicate ReadIn(request: Option<M.Envelope>, stay: nat, m: M.Mailbox) {
    && stay <= m.writes
    && (stay == m.writes ==> request == m.request)
    && (stay < m.writes ==> Installed(m))
  }

  predicate Stable(o: Offer, m: M.Mailbox) {
    Vetted(o, m) && ReadIn(Some(o.challenge.envelope), o.stay, m)
  }

  predicate Steady(s: Screen, m: M.Mailbox) {
    && (s.pending.Some? ==> Stable(s.pending.value, m))
    && (s.active.Some? ==> Stable(s.active.value.offer, m))
    && (s.active.Some? && s.active.value.shown.Some? ==> s.active.value.shown.value == Asked(s.active.value.offer).command)
    && (s.active.Some? && s.pending.Some? ==> s.pending.value == s.active.value.offer)
    && (Quiet(s) || s.awaiting.None?)
  }

  predicate Quiet(s: Screen) {
    Current(s).None?
  }

  /** Every use of the key was for a vetted request of this phone, before its expiry. */
  predicate Honest(log: seq<Signing>, phoneKey: nat) {
    forall i :: 0 <= i < |log| ==>
      && M.RunsWhatItShows(log[i].payload) && log[i].time < log[i].payload.expires
      && log[i].payload.phoneKey == phoneKey && log[i].shown == log[i].payload.command
  }

  /** The last answer is the one in the mailbox. */
  predicate Recorded(answers: seq<M.Response>, response: Option<M.Response>) {
    if response.None? then answers == [] else |answers| > 0 && answers[|answers| - 1] == response.value
  }

  /** No request of a later stay was signed, and in this one only the one in the slot. */
  predicate SignedUpTo(log: seq<Signing>, stay: nat, request: Option<M.Envelope>) {
    forall i :: 0 <= i < |log| ==>
      log[i].stay <= stay && (log[i].stay == stay ==> request.Some? && request.value.payload == log[i].payload)
  }

  predicate Sound(p: Phone) {
    && Steady(p.screen, p.mailbox)
    && Honest(p.log, p.mailbox.phoneKey)
    && Recorded(p.answers, p.mailbox.response)
    && SignedUpTo(p.log, p.mailbox.writes, p.mailbox.request)
    && (p.polling.Some? ==>
          && ReadIn(p.polling.value.request, p.polling.value.stay, p.mailbox)
          && SignedUpTo(p.log, p.polling.value.stay, p.polling.value.request))
  }

  // ----- unless a request is up for approval that was answered elsewhere -----

  predicate Answers(response: Option<M.Response>, id: nat) {
    response.Some? && response.value.requestId == id
  }

  /** A request that may still be approved or declined has no response, and unless its time is
      up was not signed in its stay. */
  predicate Unanswered(o: Offer, m: M.Mailbox, log: seq<Signing>) {
    && !Answers(m.response, Asked(o).requestId)
    && (SignedIn(log, o.stay) ==> m.now >= o.challenge.deadline)
  }

  /** Requests signed in the stay `stay` have their answer in the mailbox, and nothing is up
      for approval. */
  predicate Settled(stay: nat, m: M.Mailbox, s: Screen, log: seq<Signing>) {
    forall i :: 0 <= i < |log| && log[i].stay == stay ==> Quiet(s) && Answers(m.response, log[i].payload.requestId)
  }

  predicate Once(log: seq<Signing>) {
    forall i, j :: 0 <= i < j < |log| ==> log[i].stay != log[j].stay
  }

  /** Whatever is written answers another request than the response it replaces. */
  predicate Alternates(answers: seq<M.Response>) {
    forall i :: 0 < i < |answers| ==> answers[i].requestId != answers[i - 1].requestId
  }

  predicate Novel(p: Phone) {
    && (p.screen.pending.Some? ==> Unanswered(p.screen.pending.value, p.mailbox, p.log))
    && (p.screen.active.Some? ==> Unanswered(p.screen.active.value.offer, p.mailbox, p.log))
    && Once(p.log)
    && Alternates(p.answers)
    && Settled(p.mailbox.writes, p.mailbox, p.screen, p.log)
    && (p.polling.Some? ==> Settled(p.polling.value.stay, p.mailbox, p.screen, p.log))
  }

  predicate Inv(p: Phone) {
    Sound(p) && Novel(p)
  }

  // ----- steps that offer nothing new -----

  predicate Fewer(s: Screen, t: Screen) {
    && (t.pending.None? || t.pending == s.pending)
    && (t.active.None? || t.active == s.active)
    && (t.awaiting.None? || t.awaiting == s.awaiting)
  }

  predicate Offered(s: Screen, id: nat) {
    || (s.pending.Some? && Asked(s.pending.value).requestId == id)
    || (s.active.Some? && Asked(s.active.value.offer).requestId == id)
  }

  /** What was up for approval has been declined. */
  predicate Declines(p: Phone, q: Phone) {
    && Quiet(q.screen)
    && q.mailbox.response.Some? && q.mailbox.response.value.DeclinedResponse?
    && var response := q.mailbox.response.value;
       && Offered(p.screen, response.requestId)
       && q.mailbox == p.mailbox.(response := Some(response)) && q.answers == p.answers + [response]
  }

  predicate Mild(p: Phone, q: Phone) {
    && q.log == p.log && Fewer(p.screen, q.screen)
    && ((q.mailbox == p.mailbox && q.answers == p.answers) || Declines(p, q))
  }

  lemma MildTransitive(p: Phone, q: Phone, r: Phone)
    requires Mild(p, q) && Mild(q, r)
    ensures Mild(p, r)
  {
  }

  lemma CancelIsMild(p: Phone)
    ensures Mild(p, Cancel(p)) && Quiet(Cancel(p).screen) && Cancel(p).polling == p.polling
  {
  }

  lemma AwaitIsMild(r: Phone, found: Findings)
    ensures Mild(r, Await(r, found)) && Await(r, found).polling == r.polling
  {
  }

  lemma RecheckIsMild(q: Phone, found: Findings)
    ensures Mild(q, Recheck(q, found)) && Recheck(q, found).polling == q.polling
  {
    var c := Cancel(q);
    var d := c.(screen := c.screen.(awaiting := None));
    CancelIsMild(q);
    assert Mild(c, d);
    MildTransitive(q, c, d);
    AwaitIsMild(q, found);
    AwaitIsMild(d, found);
    MildTransitive(q, d, Await(d, found));
  }

  lemma ReviewIsMild(p: Phone, found: Findings)
    ensures Mild(p, Review(p, found)) && Review(p, found).polling == p.polling
  {
    RecheckIsMild(p, found);
    CancelIsMild(p);
    RecheckIsMild(Cancel(p), found);
    MildTransitive(p, Cancel(p), Recheck(Cancel(p), found));
  }

  lemma MildKeepsSound(p: Phone, q: Phone)
    requires Sound(p) && Mild(p, q) && (q.polling.None? || q.polling == p.polling)
    ensures Sound(q)
  {
  }

  lemma AnswerAlternates(answers: seq<M.Response>, response: Option<M.Response>, next: M.Response)
    requires Alternates(answers) && Recorded(answers, response) && !Answers(response, next.requestId)
    ensures Alternates(answers + [next])
  {
  }

  lemma MildKeepsNovel(p: Phone, q: Phone)
    requires Inv(p) && Mild(p, q) && (q.polling.None? || q.polling == p.polling)
    ensures Novel(q)
  {
    if Declines(p, q) {
      AnswerAlternates(p.answers, p.mailbox.response, q.mailbox.response.value);
    }
  }

  // ----- a poll -----

  /** A poll that looks at a new envelope lets go of everything first. */
  function LetGo(p: Phone, snapshot: Snapshot): Phone {
    var c := Cancel(p);
    c.(screen := c.screen.(seen := snapshot.request, pending := None, awaiting := None))
  }

  lemma LetGoIsMild(p: Phone, snapshot: Snapshot)
    ensures Mild(p, LetGo(p, snapshot)) && LetGo(p, snapshot).polling == p.polling && Quiet(LetGo(p, snapshot).screen)
  {
    CancelIsMild(p);
    MildTransitive(p, Cancel(p), LetGo(p, snapshot));
  }

  /** What an unseen envelope can come to: nothing, or something to approve or to wait for. */
  predicate Offers(q: Phone, r: Phone, e: M.Envelope, stay: nat) {
    && r.log == q.log && r.mailbox == q.mailbox && r.answers == q.answers && r.polling == q.polling && r.screen.active.None?
    && (r.screen.pending.Some? ==>
          && r.screen.awaiting.None?
          && r.screen.pending.value.challenge.envelope == e && r.screen.pending.value.stay == stay
          && Vetted(r.screen.pending.value, q.mailbox)
          && !Answers(q.mailbox.response, e.payload.requestId))
  }

  lemma SortOffers(q: Phone, o: Offer)
    requires Quiet(q.screen) && q.screen.awaiting.None? && Vetted(o, q.mailbox)
    ensures Offers(q, Sort(q, o).phone, o.challenge.envelope, o.stay)
  {
  }

  lemma ConsiderOffers(q: Phone, e: M.Envelope, stay: nat, found: Findings)
    requires Quiet(q.screen) && q.screen.awaiting.None?
    ensures Offers(q, Consider(q, e, stay, found).phone, e, stay)
  {
    var v := M.Validate(q.mailbox, e, false);
    if v.Valid? {
      N.ValidIsGenuine(q.mailbox, e);
      SortOffers(q.(screen := q.screen.(openedId := None)), Offer(v.challenge, stay));
    }
  }

  lemma OfferKeepsSound(q: Phone, r: Phone, e: M.Envelope, stay: nat)
    requires Sound(q) && Offers(q, r, e, stay) && ReadIn(Some(e), stay, q.mailbox)
    ensures Sound(r)
  {
  }

  lemma OfferKeepsNovel(q: Phone, r: Phone, e: M.Envelope, stay: nat)
    requires Inv(q) && Quiet(q.screen) && Offers(q, r, e, stay)
    requires SignedUpTo(q.log, stay, Some(e)) && Settled(stay, q.mailbox, q.screen, q.log)
    requires stay <= q.mailbox.writes && (q.polling.Some? ==> q.polling.value.stay == stay)
    ensures Novel(r)
  {
    if r.screen.pending.Some? {
      assert !SignedIn(q.log, stay);
      assert stay < q.mailbox.writes ==> !SignedIn(q.log, q.mailbox.writes);
    }
  }

  lemma LookIs(p: Phone, snapshot: Snapshot, found: Findings)
    requires snapshot.request.Some? && snapshot.request != p.screen.seen
    ensures Look(p, snapshot, found) == Consider(LetGo(p, snapshot), snapshot.request.value, snapshot.stay, found)
  {
  }

  lemma LookKeepsSound(p: Phone, snapshot: Snapshot, found: Findings)
    requires Sound(p) && p.polling == Some(snapshot)
    ensures Sound(Look(p, snapshot, found).phone) && Look(p, snapshot, found).phone.polling == p.polling
    ensures Look(p, snapshot, found).phone.log == p.log
  {
    if snapshot.request.Some? && snapshot.request != p.screen.seen {
      var q := LetGo(p, snapshot);
      LookIs(p, snapshot, found);
      LetGoIsMild(p, snapshot);
      MildKeepsSound(p, q);
      ConsiderOffers(q, snapshot.request.value, snapshot.stay, found);
      OfferKeepsSound(q, Look(p, snapshot, found).phone, snapshot.request.value, snapshot.stay);
    }
  }

  lemma LookKeepsNovel(p: Phone, snapshot: Snapshot, found: Findings)
    requires Inv(p) && p.polling == Some(snapshot)
    ensures Novel(Look(p, snapshot, found).phone)
  {
    if snapshot.request.Some? && snapshot.request != p.screen.seen {
      var q := LetGo(p, snapshot);
      LookIs(p, snapshot, found);
      LetGoIsMild(p, snapshot);
      MildKeepsSound(p, q);
      MildKeepsNovel(p, q);
      ConsiderOffers(q, snapshot.request.value, snapshot.stay, found);
      OfferKeepsNovel(q, Look(p, snapshot, found).phone, snapshot.request.value, snapshot.stay);
    }
  }

  function Finished(p: Phone, found: Findings): Phone
    requires p.polling.Some?
  {
    FinishPoll(p, p.polling.value, found).(polling := None)
  }

  lemma ReviewKeepsSound(p: Phone, found: Findings)
    requires Sound(p)
    ensures Sound(Review(p, found).(polling := None)) && Review(p, found).log == p.log
  {
    ReviewIsMild(p, found);
    MildKeepsSound(p, Review(p, found).(polling := None));
  }

  lemma PollKeepsSound(p: Phone, found: Findings)
    requires Sound(p) && p.polling.Some?
    ensures Sound(Finished(p, found)) && Finished(p, found).log == p.log
  {
    var looked := Look(p, p.polling.value, found);
    LookKeepsSound(p, p.polling.value, found);
    if looked.Through? {
      ReviewKeepsSound(looked.phone, found);
    } else {
      MildKeepsSound(looked.phone, looked.phone.(polling := None));
    }
  }

  lemma PollKeepsNovel(p: Phone, found: Findings)
    requires Inv(p) && p.polling.Some?
    ensures Novel(Finished(p, found))
  {
    var looked := Look(p, p.polling.value, found);
    LookKeepsSound(p, p.polling.value, found);
    LookKeepsNovel(p, p.polling.value, found);
    MildKeepsNovel(looked.phone, looked.phone.(polling := None));
    if looked.Through? {
      ReviewIsMild(looked.phone, found);
      MildKeepsNovel(looked.phone, Review(looked.phone, found).(polling := None));
    }
  }

  // ----- deliveries -----

  /** What deliveries and the passing of time do to the mailbox: a new stay only for a request
      that passes the checks. */
  predicate Raised(m: M.Mailbox, n: M.Mailbox) {
    && n.pairings == m.pairings && n.phoneKey == m.phoneKey && m.writes <= n.writes && m.now <= n.now
    && (n.writes == m.writes ==> n.request == m.request)
    && (m.writes < n.writes ==> Installed(n))
  }

  lemma RequestRaises(m: M.Mailbox, p: Payload, e: M.Envelope)
    requires M.Genuine(m.pairings, m.phoneKey, e) && M.Timely(e.payload, m.now)
    ensures Raised(m, M.ReceiveRequest(m, p, e).mailbox) && M.ReceiveRequest(m, p, e).mailbox.response == m.response
  {
  }

  lemma MailRaises(m: M.Mailbox, mail: M.Mail)
    ensures Raised(m, M.Receive(m, mail).mailbox) && M.Receive(m, mail).mailbox.response == m.response
  {
    N.ValidIsGenuine(m, mail.request);
    if M.Validate(m, mail.request, !mail.RequestMail?).Valid? {
      var p := mail.request.payload;
      match mail {
        case RequestMail(_, e) => RequestRaises(m, p, e);
        case CancelMail(_, _, w) => assert Raised(m, M.ReceiveCancel(m, p, w).mailbox);
        case ReceiptMail(_, _, r) => assert Raised(m, M.ReceiveReceipt(m, p, r).mailbox);
      }
    }
  }

  lemma WriteRaises(m: M.Mailbox, machine: nat, id: nat, e: M.Envelope)
    ensures Raised(m, M.WriteLan(m, machine, id, e).mailbox) && M.WriteLan(m, machine, id, e).mailbox.response == m.response
  {
    N.ValidIsGenuine(m, e);
  }

  lemma CallRaises(m: M.Mailbox, signer: nat, machine: nat, rpc: M.Rpc)
    ensures Raised(m, M.Handle(m, signer, machine, rpc).mailbox) && M.Handle(m, signer, machine, rpc).mailbox.response == m.response
  {
    if rpc.WriteRequest? {
      WriteRaises(m, machine, rpc.id, rpc.request);
    }
  }

  lemma DeliveryRaises(m: M.Mailbox, e: M.Event)
    requires !e.Answers?
    ensures Raised(m, M.Step(m, e)) && M.Step(m, e).response == m.response
  {
    match e {
      case Shared(mail) => MailRaises(m, mail);
      case Lan(signer, machine, rpc) => CallRaises(m, signer, machine, rpc);
      case Tick(_) =>
    }
  }

  lemma RaisedKeepsReading(request: Option<M.Envelope>, stay: nat, m: M.Mailbox, n: M.Mailbox)
    requires ReadIn(request, stay, m) && Raised(m, n)
    ensures ReadIn(request, stay, n)
  {
  }

  lemma RaisedKeepsSteady(s: Screen, m: M.Mailbox, n: M.Mailbox)
    requires Steady(s, m) && Raised(m, n)
    ensures Steady(s, n)
  {
    if s.pending.Some? {
      RaisedKeepsReading(Some(s.pending.value.challenge.envelope), s.pending.value.stay, m, n);
    }
    if s.active.Some? {
      var o := s.active.value.offer;
      RaisedKeepsReading(Some(o.challenge.envelope), o.stay, m, n);
    }
  }

  lemma RaisedKeepsLog(log: seq<Signing>, m: M.Mailbox, n: M.Mailbox)
    requires SignedUpTo(log, m.writes, m.request) && Raised(m, n)
    ensures SignedUpTo(log, n.writes, n.request)
    ensures m.writes < n.writes ==> !SignedIn(log, n.writes)
  {
  }

  lemma RaiseKeepsSound(p: Phone, n: M.Mailbox)
    requires Sound(p) && Raised(p.mailbox, n) && n.response == p.mailbox.response
    ensures Sound(p.(mailbox := n))
  {
    RaisedKeepsSteady(p.screen, p.mailbox, n);
    RaisedKeepsLog(p.log, p.mailbox, n);
    if p.polling.Some? {
      RaisedKeepsReading(p.polling.value.request, p.polling.value.stay, p.mailbox, n);
    }
  }

  lemma RaiseKeepsNovel(p: Phone, n: M.Mailbox)
    requires Inv(p) && Raised(p.mailbox, n) && n.response == p.mailbox.response
    ensures Novel(p.(mailbox := n))
  {
    RaisedKeepsLog(p.log, p.mailbox, n);
  }

  // ----- approving -----

  /** The active attempt is new, or its prompt is up. */
  predicate Approves(p: Phone, q: Phone) {
    && q.log == p.log && q.mailbox == p.mailbox && q.answers == p.answers && q.polling == p.polling
    && q.screen.pending == p.screen.pending && q.screen.awaiting == p.screen.awaiting
    && q.screen.active.Some?
    && var a := q.screen.active.value;
       && Current(p.screen) == Some(a.offer)
       && (a.shown.Some? ==> a.shown.value == Asked(a.offer).command)
  }

  lemma ApprovalKeepsSound(p: Phone, q: Phone)
    requires Sound(p) && Approves(p, q)
    ensures Sound(q)
  {
  }

  lemma ApprovalKeepsNovel(p: Phone, q: Phone)
    requires Inv(p) && Approves(p, q)
    ensures Novel(q)
  {
  }

  /** The key has been used for `o`, and the answer to its request is written. */
  predicate Signs(p: Phone, q: Phone, o: Offer, signing: Signing) {
    && p.screen.active.Some? && p.screen.active.value.offer == o && !HasExpired(p, o)
    && signing.payload == Asked(o) && signing.stay == o.stay && signing.time == p.mailbox.now && signing.shown == Asked(o).command
    && q.log == p.log + [signing] && q.polling == p.polling
    && Quiet(q.screen)
    && Answers(q.mailbox.response, Asked(o).requestId) && q.answers == p.answers + [q.mailbox.response.value]
    && q.mailbox == p.mailbox.(response := q.mailbox.response, now := q.mailbox.now) && p.mailbox.now <= q.mailbox.now
  }

  lemma SignatureKeepsSound(p: Phone, q: Phone, o: Offer, signing: Signing)
    requires Sound(p) && p.polling.None? && Signs(p, q, o, signing)
    ensures Sound(q)
  {
  }

  lemma SignatureKeepsNovel(p: Phone, q: Phone, o: Offer, signing: Signing)
    requires Inv(p) && p.polling.None? && Signs(p, q, o, signing)
    ensures Novel(q)
  {
    assert !SignedIn(p.log, o.stay);
    AnswerAlternates(p.answers, p.mailbox.response, q.mailbox.response.value);
  }

  /** The use of the key that a completed attempt makes. */
  function Use(p: Phone, serial: nat): Signing
    requires p.screen.active.Some?
  {
    var o := p.screen.active.value.offer;
    Signing(Asked(o), o.stay, serial, p.mailbox.now, Asked(o).command)
  }

  lemma CompletionSigns(p: Phone, serial: nat, authorized: bool, took: nat, verified: bool)
    requires Steady(p.screen, p.mailbox)
    ensures var q := Complete(p, serial, authorized, took, verified);
            || (Mild(p, q) && q.polling == p.polling)
            || (p.screen.active.Some? && Signs(p, q, p.screen.active.value.offer, Use(p, serial)))
  {
    CancelIsMild(p);
  }

  /** Events after which nothing more is up for approval than before. */
  predicate Ends(e: Event) {
    e.Create? || e.NewIntent? || e.Prepare? || e.Declined? || e.Failed? || e.Timeout? || e.Start? || e.Stop?
  }

  lemma TimeoutIsMild(p: Phone)
    ensures Mild(p, Act(p, Timeout)) && Act(p, Timeout).polling == p.polling
  {
    var q := p.(screen := p.screen.(timer := false));
    CancelIsMild(q);
    MildTransitive(p, q, Cancel(q));
  }

  lemma StopIsMild(p: Phone)
    ensures Mild(p, Act(p, Stop)) && Act(p, Stop).polling == p.polling
  {
    var q := p.(screen := p.screen.(stopped := true));
    CancelIsMild(q);
    MildTransitive(p, q, Cancel(q));
  }

  lemma IntentIsMild(p: Phone, id: Option<nat>)
    ensures Mild(p, Act(p, Create(id))) && Act(p, Create(id)).polling == p.polling
    ensures Mild(p, Act(p, NewIntent(id))) && Act(p, NewIntent(id)).polling == p.polling
  {
  }

  lemma DeclineIsMild(p: Phone, serial: nat)
    ensures Mild(p, Act(p, Declined(serial))) && Act(p, Declined(serial)).polling == p.polling
    ensures Mild(p, Act(p, Failed(serial))) && Act(p, Failed(serial)).polling == p.polling
  {
    CancelIsMild(p);
  }

  lemma EndIsMild(p: Phone, e: Event)
    requires Ends(e)
    ensures Mild(p, Act(p, e)) && Act(p, e).polling == p.polling
  {
    match e {
      case Create(id) => IntentIsMild(p, id);
      case NewIntent(id) => IntentIsMild(p, id);
      case Prepare(_, _) =>
      case Declined(serial) => DeclineIsMild(p, serial);
      case Failed(serial) => DeclineIsMild(p, serial);
      case Timeout => TimeoutIsMild(p);
      case Start =>
      case Stop => StopIsMild(p);
    }
  }

  lemma PressApproves(p: Phone)
    ensures (Mild(p, PressButton(p)) && PressButton(p).polling == p.polling) || Approves(p, PressButton(p))
  {
    CancelIsMild(p);
  }

  lemma PromptApproves(p: Phone, serial: nat, shown: bool)
    ensures (Mild(p, ShowPrompt(p, serial, shown)) && ShowPrompt(p, serial, shown).polling == p.polling) || Approves(p, ShowPrompt(p, serial, shown))
  {
    CancelIsMild(p);
  }

  /** What one turn of the main thread outside a poll may do. */
  predicate Turns(p: Phone, q: Phone, e: Event) {
    || (Mild(p, q) && q.polling == p.polling)
    || Approves(p, q)
    || (e.Succeeded? && p.screen.active.Some? && Signs(p, q, p.screen.active.value.offer, Use(p, e.serial)))
  }

  lemma ActTurns(p: Phone, e: Event)
    requires Steady(p.screen, p.mailbox) && !e.Delivered? && !e.PollFinish? && !e.PollRead?
    ensures Turns(p, Act(p, e), e)
  {
    if Ends(e) {
      EndIsMild(p, e);
    } else {
      match e {
        case Press => PressApproves(p);
        case Prompt(serial, shown) => PromptApproves(p, serial, shown);
        case Succeeded(serial, authorized, took, verified) => CompletionSigns(p, serial, authorized, took, verified);
      }
    }
  }

  lemma TurnKeepsSound(p: Phone, q: Phone, e: Event)
    requires Sound(p) && p.polling.None? && Turns(p, q, e)
    ensures Sound(q) && p.log <= q.log
  {
    if Mild(p, q) {
      MildKeepsSound(p, q);
    } else if Approves(p, q) {
      ApprovalKeepsSound(p, q);
    } else {
      SignatureKeepsSound(p, q, p.screen.active.value.offer, Use(p, e.serial));
    }
  }

  lemma TurnKeepsNovel(p: Phone, q: Phone, e: Event)
    requires Inv(p) && p.polling.None? && Turns(p, q, e)
    ensures Novel(q)
  {
    if Mild(p, q) {
      MildKeepsNovel(p, q);
    } else if Approves(p, q) {
      ApprovalKeepsNovel(p, q);
    } else {
      SignatureKeepsNovel(p, q, p.screen.active.value.offer, Use(p, e.serial));
    }
  }

  lemma ReadingKeepsSound(p: Phone)
    requires Sound(p) && p.polling.None?
    ensures Sound(Act(p, PollRead))
  {
  }

  lemma ReadingKeepsNovel(p: Phone)
    requires Inv(p) && p.polling.None?
    ensures Novel(Act(p, PollRead))
  {
  }

  // ----- runs -----

  /** However the acting activity came to act: its offers are vetted, and every use of the key
      is for a vetted request of this phone that was on the prompt. */
  lemma StepKeepsSound(p: Phone, e: Event)
    requires Sound(p)
    ensures Sound(Step(p, e)) && p.log <= Step(p, e).log
  {
    if e.Delivered? {
      if !e.event.Answers? {
        DeliveryRaises(p.mailbox, e.event);
        RaiseKeepsSound(p, M.Step(p.mailbox, e.event));
      }
    } else if e.PollFinish? {
      if p.polling.Some? { PollKeepsSound(p, e.found); }
    } else if p.polling.None? {
      if e.PollRead? {
        ReadingKeepsSound(p);
      } else {
        ActTurns(p, e);
        TurnKeepsSound(p, Act(p, e), e);
      }
    }
  }

  lemma StepKeepsNovel(p: Phone, e: Event)
    requires Inv(p)
    ensures Novel(Step(p, e))
  {
    if e.Delivered? {
      if !e.event.Answers? {
        DeliveryRaises(p.mailbox, e.event);
        RaiseKeepsNovel(p, M.Step(p.mailbox, e.event));
      }
    } else if e.PollFinish? {
      if p.polling.Some? { PollKeepsNovel(p, e.found); }
    } else if p.polling.None? {
      if e.PollRead? {
        ReadingKeepsNovel(p);
      } else {
        ActTurns(p, e);
        TurnKeepsNovel(p, Act(p, e), e);
      }
    }
  }

  lemma StepKeepsInv(p: Phone, e: Event)
    requires Inv(p)
    ensures Inv(Step(p, e))
  {
    StepKeepsSound(p, e);
    StepKeepsNovel(p, e);
  }

  lemma {:induction false} RunKeepsInv(p: Phone, events: seq<Event>)
    requires Inv(p)
    ensures Inv(Run(p, events))
    decreases |events|
  {
    if events != [] {
      StepKeepsInv(p, events[0]);
      RunKeepsInv(Step(p, events[0]), events[1..]);
    }
  }

  lemma InitialInv(m: M.Mailbox)
    ensures Inv(Initial(m))
  {
  }

  lemma {:induction false} RunKeepsSound(p: Phone, events: seq<Event>)
    requires Sound(p)
    ensures Sound(Run(p, events)) && p.log <= Run(p, events).log
    decreases |events|
  {
    if events != [] {
      StepKeepsSound(p, events[0]);
      RunKeepsSound(Step(p, events[0]), events[1..]);
    }
  }

  lemma PollRaises(p: Phone, found: Findings)
    requires p.polling.Some?
    ensures Step(p, PollFinish(found)).mailbox == p.mailbox.(response := Step(p, PollFinish(found)).mailbox.response)
  {
    var looked := Look(p, p.polling.value, found);
    var snapshot := p.polling.value;
    if snapshot.request.Some? && snapshot.request != p.screen.seen {
      LookIs(p, snapshot, found);
      LetGoIsMild(p, snapshot);
      ConsiderOffers(LetGo(p, snapshot), snapshot.request.value, snapshot.stay, found);
    }
    if looked.Through? {
      ReviewIsMild(looked.phone, found);
    }
  }

  /** Nothing the phone does takes a stay back. */
  lemma StepRaises(p: Phone, e: Event)
    requires Sound(p)
    ensures Raised(p.mailbox, Step(p, e).mailbox)
  {
    if e.Delivered? {
      if !e.event.Answers? { DeliveryRaises(p.mailbox, e.event); }
    } else if e.PollFinish? {
      if p.polling.Some? { PollRaises(p, e.found); }
    } else if p.polling.None? && !e.PollRead? {
      ActTurns(p, e);
      TurnRaises(p, Act(p, e), e);
    }
  }

  lemma TurnRaises(p: Phone, q: Phone, e: Event)
    requires Turns(p, q, e)
    ensures Raised(p.mailbox, q.mailbox)
  {
  }

  lemma RaisedTransitive(m: M.Mailbox, n: M.Mailbox, o: M.Mailbox)
    requires Raised(m, n) && Raised(n, o)
    ensures Raised(m, o)
  {
  }

  lemma {:induction false} RunRaises(p: Phone, events: seq<Event>)
    requires Sound(p)
    ensures Raised(p.mailbox, Run(p, events).mailbox)
    decreases |events|
  {
    if events != [] {
      var q := Step(p, events[0]);
      StepKeepsSound(p, events[0]);
      StepRaises(p, events[0]);
      RunRaises(q, events[1..]);
      RaisedTransitive(p.mailbox, q.mailbox, Run(q, events[1..]).mailbox);
    }
  }

  // ----- what is signed -----

  /** The fingerprint just given is for the attempt that is still active and prompted, in the
      foreground, before its deadline and so before the signed expiry, when the mailbox holds
      no withdrawal of it; and what is signed is the vetted payload of that attempt, whose
      displayed command is the one it authorises. */
  predicate Guarded(p: Phone, e: Event) {
    && e.Succeeded? && IsActive(p.screen, e.serial) && p.screen.active.value.shown == Some(Asked(p.screen.active.value.offer).command) && !p.screen.stopped
    && var o := p.screen.active.value.offer;
       && Step(p, e).log == p.log + [Use(p, e.serial)]
       && p.mailbox.now < o.challenge.deadline <= Asked(o).expires
       && M.Canceled(Asked(o), p.mailbox.cancel).No?
       && o.challenge.envelope.signer == Asked(o).machine
       && M.RunsWhatItShows(Asked(o))
  }

  lemma OnlyCompletionSigns(p: Phone, e: Event)
    requires Sound(p) && Step(p, e).log != p.log
    ensures e.Succeeded? && p.polling.None? && Step(p, e) == Complete(p, e.serial, e.authorized, e.took, e.verified)
    ensures p.screen.active.Some? && Step(p, e).log == p.log + [Use(p, e.serial)]
  {
    if e.PollFinish? {
      if p.polling.Some? { PollKeepsSound(p, e.found); }
    } else if !e.Delivered? && !e.PollRead? && p.polling.None? {
      ActTurns(p, e);
    }
  }

  /** Nothing else uses the key, however the acting activity came to act. */
  lemma SigningIsGuarded(p: Phone, e: Event)
    requires Sound(p)
    ensures Step(p, e).log == p.log || Guarded(p, e)
  {
    if Step(p, e).log != p.log {
      OnlyCompletionSigns(p, e);
    }
  }

  /** The signature is published exactly when it was made in time and verifies; otherwise the
      request is declined. Either way it is no longer up for approval. */
  lemma SignatureIsPublishedInTime(p: Phone, e: Event)
    requires Sound(p) && Step(p, e).log != p.log
    ensures e.Succeeded? && p.screen.active.Some?
    ensures var o := p.screen.active.value.offer;
            && Quiet(Step(p, e).screen)
            && Step(p, e).mailbox.response == Some(
                 if p.mailbox.now + e.took < o.challenge.deadline && e.verified
                 then M.SignedResponse(Asked(o).requestId, Asked(o), |p.log|) else M.DeclinedResponse(Asked(o).requestId))
  {
    OnlyCompletionSigns(p, e);
  }

  lemma QuietTurns(p: Phone, q: Phone, e: Event)
    requires Quiet(p.screen) && Turns(p, q, e)
    ensures q.mailbox == p.mailbox
  {
  }

  lemma QuietPoll(p: Phone, found: Findings)
    requires Inv(p) && p.polling.Some? && SignedIn(p.log, p.mailbox.writes)
    ensures Step(p, PollFinish(found)).mailbox == p.mailbox
  {
    var snapshot := p.polling.value;
    var looked := Look(p, snapshot, found);
    LookKeepsNovel(p, snapshot, found);
    if snapshot.request.Some? && snapshot.request != p.screen.seen {
      LookIs(p, snapshot, found);
      LetGoIsMild(p, snapshot);
      ConsiderOffers(LetGo(p, snapshot), snapshot.request.value, snapshot.stay, found);
    }
    LookKeepsSound(p, snapshot, found);
    assert looked.phone.mailbox == p.mailbox && Quiet(looked.phone.screen);
    if looked.Through? {
      ReviewIsMild(looked.phone, found);
    }
  }

  /** Once the request in the slot has been signed, nothing the acting activity does changes
      the response while the request stays. */
  lemma SignedStayIsOver(p: Phone, e: Event)
    requires Inv(p) && SignedIn(p.log, p.mailbox.writes)
    ensures Step(p, e).mailbox.response == p.mailbox.response
  {
    if e.Delivered? {
      if !e.event.Answers? { DeliveryRaises(p.mailbox, e.event); }
    } else if e.PollFinish? {
      if p.polling.Some? { QuietPoll(p, e.found); }
    } else if p.polling.None? && !e.PollRead? {
      ActTurns(p, e);
      QuietTurns(p, Act(p, e), e);
    }
  }
}
