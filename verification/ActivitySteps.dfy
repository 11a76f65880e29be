/** `MainActivity`: when the phone asks for a fingerprint and when it signs. Its code runs
    on one thread; only mailbox deliveries come in between, also in the middle of a poll. */
module ActivitySteps {
  import opened Protocol
  import opened TextChecks
  import M = MailboxSteps

  /** A challenge read from the mailbox, with the number of the stay it was read in. */
  datatype Offer = Offer(challenge: M.Challenge, stay: nat)

  /** `serial` is the attempt's identity; `shown` is the command on its fingerprint prompt,
      once that is up. */
  datatype Attempt = Attempt(offer: Offer, serial: nat, shown: Option<Text>)

  /** One use of the signing key, identified by its position in the log, and the command on
      the prompt whose fingerprint it was. */
  datatype Signing = Signing(payload: Payload, stay: nat, serial: nat, time: int, shown: Text)

  datatype Screen = Screen(
    pending: Option<Offer>,
    active: Option<Attempt>,
    awaiting: Option<Offer>,
    signedResponse: Option<M.Response>,
    seen: Option<M.Envelope>,
    openedId: Option<nat>,
    stopped: bool,
    busy: bool,
    keyed: bool,
    timer: bool,
    attempts: nat)

  /** `polling` holds the file read at the start of a poll that has not ended yet; `answers`
      are the responses written to the mailbox, in order, from the one found at first. */
  datatype Snapshot = Snapshot(request: Option<M.Envelope>, stay: nat)

  datatype Phone = Phone(mailbox: M.Mailbox, screen: Screen, polling: Option<Snapshot>, log: seq<Signing>, answers: seq<M.Response>)

  const BLANK := Screen(None, None, None, None, None, None, true, false, false, false, 0)

  function Initial(m: M.Mailbox): Phone {
    Phone(m, BLANK, None, [], if m.response.Some? then [m.response.value] else [])
  }

  /** What a poll finds after its first read: whether the notification's icon decodes, and what
      the later reads of the withdrawal and the receipt say, whenever they were written. */
  datatype Findings = Findings(icon: bool, withdrawn: M.Check, stillWithdrawn: M.Check, receipt: M.Check)

  datatype Event =
    | Delivered(event: M.Event)
    | Create(id: Option<nat>)
    | NewIntent(id: Option<nat>)
    | Prepare(busy: bool, keyed: bool)
    | PollRead
    | PollFinish(found: Findings)
    | Press
    | Prompt(serial: nat, shown: bool)
    | Succeeded(serial: nat, authorized: bool, took: nat, verified: bool)
    | Declined(serial: nat)
    | Failed(serial: nat)
    | Timeout
    | Start
    | Stop

  const GRACE := 15000

  predicate HasExpired(p: Phone, o: Offer) {
    p.mailbox.now >= o.challenge.deadline
  }

  function Asked(o: Offer): Payload {
    o.challenge.envelope.payload
  }

  /** The active attempt's request, else the pending one. */
  function Current(s: Screen): Option<Offer> {
    if s.active.Some? then Some(s.active.value.offer) else s.pending
  }

  /** `Bridge.signed` and `Bridge.declined`. */
  function Answer(p: Phone, response: M.Response): Phone {
    p.(mailbox := M.Step(p.mailbox, M.Answers(response)), answers := p.answers + [response])
  }

  function Cancel(p: Phone): Phone {
    match Current(p.screen)
    case None => p
    case Some(o) =>
      Answer(p, M.DeclinedResponse(Asked(o).requestId)).(screen := p.screen.(active := None, pending := None, timer := false))
  }

  /** The poll's `catch` clause. */
  function Abandon(p: Phone): Phone {
    p.(screen := p.screen.(pending := None, awaiting := None))
  }

  /** `key.verify`, ideal: the signature is one the key made of this payload. */
  predicate Verifies(log: seq<Signing>, payload: Payload, signature: nat) {
    signature < |log| && log[signature].payload == payload
  }

  /** The key was used for a request in its stay `stay`. */
  predicate SignedIn(log: seq<Signing>, stay: nat) {
    exists i :: 0 <= i < |log| && log[i].stay == stay
  }

  /** Where a poll goes on after looking at the request file. */
  datatype Poll = Through(phone: Phone) | Done(phone: Phone)

  function Look(p: Phone, snapshot: Snapshot, found: Findings): Poll {
    if snapshot.request.None? || snapshot.request == p.screen.seen then Through(p)
    else
      var c := Cancel(p);
      var q := c.(screen := c.screen.(seen := snapshot.request, pending := None, awaiting := None));
      Consider(q, snapshot.request.value, snapshot.stay, found)
  }

  /** A request not seen before. */
  function Consider(q: Phone, e: M.Envelope, stay: nat, found: Findings): Poll {
    match M.Validate(q.mailbox, e, false)
    case Expired => Done(Abandon(q))
    case Invalid => Done(Abandon(q))
    case Valid(challenge) =>
      var r := q.(screen := q.screen.(openedId := None));
      var id := e.payload.requestId;
      if q.screen.openedId.Some? && q.screen.openedId.value != id then Done(Abandon(r))
      else if found.withdrawn.Throws? then Done(Abandon(r))
      else if found.withdrawn.Yes? then Done(r)
      else if !found.icon then Done(Abandon(r))
      else Sort(r, Offer(challenge, stay))
  }

  /** Whether a request is to be approved, was signed already, or was declined. */
  function Sort(r: Phone, o: Offer): Poll {
    var previous := r.mailbox.response;
    if previous.None? || previous.value.requestId != Asked(o).requestId then Through(r.(screen := r.screen.(pending := Some(o))))
    else if previous.value.DeclinedResponse? then Through(r)
    else if previous.value.payload != Asked(o) || !Verifies(r.log, Asked(o), previous.value.signature) then Done(Abandon(r))
    else Through(r.(screen := r.screen.(awaiting := Some(o), signedResponse := previous)))
  }

  /** The rest of the poll. */
  function Review(p: Phone, found: Findings): Phone {
    Recheck(if p.screen.pending.Some? && HasExpired(p, p.screen.pending.value) then Cancel(p) else p, found)
  }

  function Recheck(q: Phone, found: Findings): Phone {
    var current := if q.screen.pending.Some? then q.screen.pending else q.screen.awaiting;
    if current.None? then Await(q, found)
    else
      match found.stillWithdrawn
      case Throws => Abandon(q)
      case No => Await(q, found)
      case Yes =>
        var c := Cancel(q);
        Await(c.(screen := c.screen.(awaiting := None)), found)
  }

  function Await(r: Phone, found: Findings): Phone {
    if r.screen.awaiting.None? then r
    else if found.receipt.Throws? then Abandon(r)
    else if found.receipt.Yes? || r.mailbox.now >= r.screen.awaiting.value.challenge.deadline + GRACE
    then r.(screen := r.screen.(awaiting := None))
    else r
  }

  function FinishPoll(p: Phone, snapshot: Snapshot, found: Findings): Phone {
    match Look(p, snapshot, found)
    case Done(q) => q
    case Through(q) => Review(q, found)
  }

  function Begin(p: Phone): Phone {
    var s := p.screen;
    if s.active.Some? || s.busy || s.stopped || s.pending.None? then p
    else if HasExpired(p, s.pending.value) then Cancel(p)
    else p.(screen := s.(active := Some(Attempt(s.pending.value, s.attempts, None)), timer := true, attempts := s.attempts + 1))
  }

  function PressButton(p: Phone): Phone {
    if !p.screen.keyed then p.(screen := p.screen.(busy := p.screen.busy || !p.screen.stopped))
    else if p.screen.awaiting.Some? && Asked(p.screen.awaiting.value).kdeRoute then p
    else Begin(p)
  }

  predicate IsActive(s: Screen, serial: nat) {
    s.active.Some? && s.active.value.serial == serial
  }

  function ShowPrompt(p: Phone, serial: nat, shown: bool): Phone {
    var s := p.screen;
    if !IsActive(s, serial) || s.stopped then p
    else if HasExpired(p, s.active.value.offer) || !shown then Cancel(p)
    else p.(screen := s.(active := Some(s.active.value.(shown := Some(Asked(s.active.value.offer).command)))))
  }

  /** `completeLocked`, holding the mailbox lock; signing itself takes `took`. */
  function Complete(p: Phone, serial: nat, authorized: bool, took: nat, verified: bool): Phone {
    var s := p.screen;
    if !IsActive(s, serial) || s.stopped then p
    else
      var o := s.active.value.offer;
      if HasExpired(p, o) || !M.Canceled(Asked(o), p.mailbox.cancel).No? then Cancel(p)
      else if !authorized || s.active.value.shown.None? then Cancel(p)
      else Sign(p, o, s.active.value.shown.value, serial, took, verified)
  }

  function Sign(p: Phone, o: Offer, shown: Text, serial: nat, took: nat, verified: bool): Phone {
    var signing := Signing(Asked(o), o.stay, serial, p.mailbox.now, shown);
    var q := p.(log := p.log + [signing], mailbox := p.mailbox.(now := p.mailbox.now + took));
    if HasExpired(q, o) || !verified then Cancel(q) else Publish(q, o)
  }

  function Publish(q: Phone, o: Offer): Phone
    requires |q.log| > 0
  {
    var response := M.SignedResponse(Asked(o).requestId, Asked(o), |q.log| - 1);
    Answer(q, response).(
      screen := q.screen.(signedResponse := Some(response), awaiting := Some(o), active := None, pending := None, timer := false))
  }

  function Open(s: Screen, id: Option<nat>): Screen {
    if id.Some? && (s.pending.None? || id.value != Asked(s.pending.value).requestId)
                && (s.awaiting.None? || id.value != Asked(s.awaiting.value).requestId)
    then s.(openedId := id, seen := None)
    else s.(openedId := None)
  }

  /** The delayed `timeout`, and leaving the foreground. */
  function Lapse(p: Phone): Phone {
    if p.screen.timer then Cancel(p.(screen := p.screen.(timer := false))) else p
  }

  function Halt(p: Phone): Phone {
    var q := p.(screen := p.screen.(stopped := true));
    if p.screen.active.Some? then Cancel(q) else q
  }

  /** While a poll is under way only deliveries happen. */
  function Step(p: Phone, e: Event): Phone {
    match e
    case Delivered(event) => if event.Answers? then p else p.(mailbox := M.Step(p.mailbox, event))
    case PollFinish(found) =>
      if p.polling.Some? then FinishPoll(p, p.polling.value, found).(polling := None) else p
    case _ => if p.polling.Some? then p else Act(p, e)
  }

  /** `Create` is a new activity after a rotation or a killed process: it knows only its
      intent, and no earlier attempt is active in it; the mailbox and the key stay. */
  function Act(p: Phone, e: Event): Phone {
    match e
    case Delivered(_) => p
    case PollFinish(_) => p
    case PollRead =>
      if p.screen.stopped || p.screen.busy || !p.screen.keyed then p
      else p.(polling := Some(Snapshot(p.mailbox.request, p.mailbox.writes)))
    case Create(id) => p.(screen := BLANK.(openedId := id, attempts := p.screen.attempts))
    case NewIntent(id) => p.(screen := Open(p.screen, id))
    case Prepare(busy, keyed) => p.(screen := p.screen.(busy := busy, keyed := keyed))
    case Press => PressButton(p)
    case Prompt(serial, shown) => ShowPrompt(p, serial, shown)
    case Succeeded(serial, authorized, took, verified) => Complete(p, serial, authorized, took, verified)
    case Declined(serial) => if IsActive(p.screen, serial) then Cancel(p) else p
    case Failed(serial) => if IsActive(p.screen, serial) && !p.screen.stopped then Cancel(p) else p
    case Timeout => Lapse(p)
    case Start => p.(screen := p.screen.(stopped := false))
    case Stop => Halt(p)
  }

  function Run(p: Phone, events: seq<Event>): Phone
    decreases |events|
  {
    if events == [] then p else Run(Step(p, events[0]), events[1..])
  }
}
