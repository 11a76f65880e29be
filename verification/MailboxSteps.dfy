/** The phone's one-request mailbox: `Bridge` as file contents, and what the two transports
    do to it. Both hold the same lock, so each delivery is one step. */
module MailboxSteps {
  import opened Protocol
  import opened TextChecks

  /** A signed request as delivered. `signer` is the key whose signature verifies and
      `signature` tells two signatures of one payload apart, keys stand for their digests, and
      `admissible` is everything else that `Bridge.validate` and `Challenge` ask: certificate
      chains, domain, id and nonce formats, other metadata. */
  datatype Envelope = Envelope(
    machineKey: nat,
    phoneKey: nat,
    phoneCertificate: nat,
    signer: nat,
    signature: nat,
    admissible: bool,
    payload: Payload)

  datatype Pairing = Pairing(machineKey: nat, phoneCertificate: nat)

  datatype Response = SignedResponse(requestId: nat, payload: Payload, signature: nat) | DeclinedResponse(requestId: nat)

  /** `digest` stands for the request whose SHA-256 is quoted. */
  datatype Withdrawal = Withdrawal(signer: nat, requestId: nat, machine: nat, phoneKey: nat, digest: Payload)

  datatype Receipt = Receipt(signer: nat, requestId: nat, machine: nat, phoneKey: nat, approved: bool, signature: nat, pid: int)

  datatype Tombstone = Tombstone(until: int, hash: Payload)

  datatype TombstoneId = TombstoneId(machine: nat, requestId: nat)

  /** `writes` counts how often `request.json` has been written; it numbers the stays of
      requests in the slot. */
  datatype Mailbox = Mailbox(
    phoneKey: nat,
    pairings: map<nat, Pairing>,
    now: int,
    request: Option<Envelope>,
    writes: nat,
    response: Option<Response>,
    cancel: Option<Withdrawal>,
    receipt: Option<Receipt>,
    tombstones: map<TombstoneId, Tombstone>)

  /** A parsed and verified request with its deadline on the phone's clock. */
  datatype Challenge = Challenge(envelope: Envelope, deadline: int)

  datatype Validation = Valid(challenge: Challenge) | Expired | Invalid

  /** A check that may also throw. */
  datatype Check = Yes | No | Throws

  const WINDOW := 120000
  const SKEW := 30000
  const TOMBSTONE_LIMIT := 64

  // ----- Challenge and Bridge -----

  /** The command that is displayed is the one that runs, as root. */
  predicate RunsWhatItShows(p: Payload) {
    p.execution.Some? ==>
      p.execution.value.argv == Argv(p.command) && p.execution.value.uid == 0 && p.execution.value.gid == 0
  }

  predicate Shown(p: Payload) {
    && Displayable(Utf16(p.application), 80, false)
    && Displayable(Utf16(p.command), 512, true)
    && RunsWhatItShows(p)
  }

  predicate Timely(p: Payload, now: int) {
    p.issued <= now + SKEW && p.issued < p.expires && p.expires - p.issued <= WINDOW
  }

  function Min(a: int, b: int): int {
    if a < b then a else b
  }

  function Validate(m: Mailbox, e: Envelope, allowExpired: bool): Validation {
    if e.machineKey !in m.pairings || !e.admissible || e.signer != e.machineKey then Invalid
    else if !Shown(e.payload) || !Timely(e.payload, m.now) then Invalid
    else if e.payload.expires <= m.now && !allowExpired then Expired
    else if !e.payload.authenticate then Invalid
    else if e.phoneKey != m.phoneKey || e.payload.phoneKey != m.phoneKey || e.payload.machine != e.machineKey then Invalid
    else if m.pairings[e.machineKey] != Pairing(e.machineKey, e.phoneCertificate) then Invalid
    else Valid(Challenge(e, m.now + Min(e.payload.expires - m.now, WINDOW)))
  }

  /** What `Validate` asks of a request whatever the time. */
  predicate Genuine(pairings: map<nat, Pairing>, phoneKey: nat, e: Envelope) {
    && e.machineKey in pairings && e.admissible && e.signer == e.machineKey
    && Shown(e.payload) && e.payload.authenticate
    && e.phoneKey == phoneKey && e.payload.phoneKey == phoneKey && e.payload.machine == e.machineKey
    && pairings[e.machineKey] == Pairing(e.machineKey, e.phoneCertificate)
  }

  function Canceled(p: Payload, w: Option<Withdrawal>): Check {
    if w.None? || w.value.requestId != p.requestId then No
    else if w.value.signer == p.machine && w.value.machine == p.machine && w.value.phoneKey == p.phoneKey && w.value.digest == p then Yes
    else Throws
  }

  function Receipted(p: Payload, response: Response, r: Option<Receipt>): Check {
    if r.None? || r.value.requestId != p.requestId then No
    else if r.value.signer == p.machine && r.value.approved && r.value.machine == p.machine && r.value.phoneKey == p.phoneKey
            && response.SignedResponse? && r.value.signature == response.signature && (p.execution.Some? ==> r.value.pid > 0) then Yes
    else Throws
  }

  /** Whether the request in the slot has ended before its time. */
  function Finished(m: Mailbox, p: Payload): Check {
    var canceled := Canceled(p, m.cancel);
    if !canceled.No? then canceled
    else if m.response.None? || m.response.value.requestId != p.requestId then No
    else if m.response.value.DeclinedResponse? then Yes
    else Receipted(p, m.response.value, m.receipt)
  }

  // ----- taking the slot -----

  datatype Claim = Take | Keep | Refuse

  /** What a new verified request may do with the slot. */
  function Claims(m: Mailbox, p: Payload): Claim {
    if m.request.None? then Take
    else
      match Validate(m, m.request.value, false)
      case Expired => Take
      case Invalid => Refuse
      case Valid(previous) =>
        var q := previous.envelope.payload;
        if q.requestId == p.requestId then if q == p then Keep else Refuse
        else if Finished(m, q).Yes? then Take
        else Refuse
  }

  // ----- KDE Connect -----

  datatype Mail =
    | RequestMail(id: nat, request: Envelope)
    | CancelMail(id: nat, request: Envelope, withdrawal: Withdrawal)
    | ReceiptMail(id: nat, request: Envelope, receipt: Receipt)

  datatype Delivery = Delivery(mailbox: Mailbox, accepted: bool)

  function Prune(tombstones: map<TombstoneId, Tombstone>, now: int): map<TombstoneId, Tombstone> {
    map id | id in tombstones && !(tombstones[id].until < now) :: tombstones[id]
  }

  function TombstoneFor(p: Payload): TombstoneId {
    TombstoneId(p.machine, p.requestId)
  }

  function ReceiveCancel(m: Mailbox, p: Payload, w: Withdrawal): Delivery {
    var pruned := Prune(m.tombstones, m.now);
    var until := p.expires + SKEW;
    if !Canceled(p, Some(w)).Yes? then Delivery(m, false)
    else if until > m.now && |pruned| >= TOMBSTONE_LIMIT && TombstoneFor(p) !in pruned then Delivery(m, false)
    else
      var kept := if until > m.now then pruned[TombstoneFor(p) := Tombstone(until, p)] else pruned;
      var current := m.request.Some? && m.request.value.payload == p;
      Delivery(m.(tombstones := kept, cancel := if current then Some(w) else m.cancel), true)
  }

  function ReceiveRequest(m: Mailbox, p: Payload, e: Envelope): Delivery {
    var pruned := Prune(m.tombstones, m.now);
    if TombstoneFor(p) in pruned && pruned[TombstoneFor(p)].hash == p then Delivery(m, true)
    else
      match Claims(m, p)
      case Take => Delivery(m.(request := Some(e), writes := m.writes + 1, tombstones := pruned), true)
      case Keep => Delivery(m, true)
      case Refuse => Delivery(m, false)
  }

  function ReceiveReceipt(m: Mailbox, p: Payload, r: Receipt): Delivery {
    if m.request.Some? && m.request.value.payload == p && m.response.Some? && m.response.value.requestId == p.requestId
       && Receipted(p, m.response.value, Some(r)).Yes? then Delivery(m.(receipt := Some(r)), true)
    else Delivery(m, false)
  }

  function Receive(m: Mailbox, mail: Mail): Delivery {
    match Validate(m, mail.request, !mail.RequestMail?)
    case Expired => Delivery(m, false)
    case Invalid => Delivery(m, false)
    case Valid(request) =>
      var p := request.envelope.payload;
      if mail.id != p.requestId || !p.kdeRoute then Delivery(m, false)
      else
        match mail
        case RequestMail(_, e) => ReceiveRequest(m, p, e)
        case CancelMail(_, _, w) => ReceiveCancel(m, p, w)
        case ReceiptMail(_, _, r) => ReceiveReceipt(m, p, r)
  }

  // ----- LAN -----

  datatype Rpc =
    | WriteRequest(id: nat, request: Envelope)
    | ReadResponse(id: nat)
    | WriteCancel(id: nat, withdrawal: Withdrawal)
    | WriteReceipt(id: nat, receipt: Receipt)

  /** `value` is what a read returns; a refused call closes the connection without a word. */
  datatype Answer = Answer(mailbox: Mailbox, accepted: bool, value: Option<Response>)

  function Refused(m: Mailbox): Answer {
    Answer(m, false, None)
  }

  function WriteLan(m: Mailbox, machine: nat, id: nat, e: Envelope): Answer {
    match Validate(m, e, false)
    case Expired => Refused(m)
    case Invalid => Refused(m)
    case Valid(request) =>
      var p := request.envelope.payload;
      if id != p.requestId || machine != p.machine then Refused(m)
      else
        match Claims(m, p)
        case Take => Answer(m.(request := Some(e), writes := m.writes + 1), true, None)
        case Keep => Answer(m, true, None)
        case Refuse => Refused(m)
  }

  function UseLan(m: Mailbox, p: Payload, rpc: Rpc): Answer {
    match rpc
    case WriteRequest(_, _) => Refused(m)
    case ReadResponse(id) =>
      Answer(m, true, if m.response.Some? && m.response.value.requestId == id then m.response else None)
    case WriteCancel(_, w) =>
      if Canceled(p, Some(w)).Yes? then Answer(m.(cancel := Some(w)), true, None) else Refused(m)
    case WriteReceipt(id, r) =>
      if m.response.Some? && m.response.value.requestId == id && Receipted(p, m.response.value, Some(r)).Yes?
      then Answer(m.(receipt := Some(r)), true, None) else Refused(m)
  }

  function Exchange(m: Mailbox, machine: nat, rpc: Rpc): Answer {
    if rpc.WriteRequest? then WriteLan(m, machine, rpc.id, rpc.request)
    else if m.request.None? then Refused(m)
    else
      match Validate(m, m.request.value, rpc.WriteCancel? || rpc.WriteReceipt?)
      case Expired => Refused(m)
      case Invalid => Refused(m)
      case Valid(request) =>
        var p := request.envelope.payload;
        if rpc.id != p.requestId || machine != p.machine then Refused(m) else UseLan(m, p, rpc)
  }

  /** `handle` first checks the RPC's signature against the pairing of the machine it names. */
  function Handle(m: Mailbox, signer: nat, machine: nat, rpc: Rpc): Answer {
    if machine in m.pairings && signer == m.pairings[machine].machineKey then Exchange(m, machine, rpc) else Refused(m)
  }

  // ----- runs -----

  /** `Answers` is `Bridge.signed` or `Bridge.declined`, called by the activity. */
  datatype Event =
    | Shared(mail: Mail)
    | Lan(signer: nat, machine: nat, rpc: Rpc)
    | Answers(response: Response)
    | Tick(time: nat)

  function Step(m: Mailbox, e: Event): Mailbox {
    match e
    case Shared(mail) => Receive(m, mail).mailbox
    case Lan(signer, machine, rpc) => Handle(m, signer, machine, rpc).mailbox
    case Answers(response) => m.(response := Some(response))
    case Tick(time) => m.(now := m.now + time)
  }

  function Run(m: Mailbox, events: seq<Event>): Mailbox
    decreases |events|
  {
    if events == [] then m else Run(Step(m, events[0]), events[1..])
  }
}
