/** `Authority.handle`, one helper process from its lock to its exit, over the database
    it shares with every earlier and later process. A phase is a place where the
    coroutine waits or where the process may be killed. */
module AuthoritySteps {
  import opened Protocol
  import opened TextChecks

  datatype RowStatus = Pending | Ready | Consumed | Canceled

  datatype Row = Row(desktopId: nat, payload: Payload, status: RowStatus)

  type Rows = map<nat, Row>

  /** The fields of `start` that the command depends on, with everything else that
      `validate_start` asks of the operating system folded into `admissible`. */
  datatype Wish = Wish(application: Text, command: Text, environment: map<Variable, Text>, admissible: bool)

  datatype DesktopEvent = WishEvent(wish: Wish) | CommitEvent | CancelEvent | OtherEvent

  /** `Unreadable` is any line on which `read_event` raises. */
  datatype DesktopLine = Unreadable | Spoken(id: nat, event: DesktopEvent, exact: bool)

  /** The watcher, which waits for the second line. */
  datatype Watch = Watching | Saw(line: DesktopLine) | Lost

  datatype Mail = ReceiptMail | CancelMail

  /** What `subprocess.Popen` is given. */
  datatype Launch = Launch(requestId: nat, argv: seq<Text>, uid: int, gid: int, cwd: Directory, environment: map<Variable, Text>)

  datatype Phase =
    | Booting
    | AwaitStart
    | Discovering
    | Delivering
    | Approving
    | Announcing
    | AwaitCommit
    | Accepted
    | Launched
    | Confirming
    | Reporting(delivered: bool)
    | Failing
    | CleaningUp
    | Withdrawing
    | Gone

  /** Where in the trace this helper's signature was made, verified, followed by a line of
      the desktop, consumed and used. */
  datatype Proof = Proof(signature: nat, verifiedAt: nat, watchedAt: nat, takenAt: nat, launchedAt: nat)

  datatype Helper = Helper(
    phase: Phase,
    desktopId: Option<nat>,
    startedAt: nat,
    watch: Watch,
    wish: Wish,
    environment: map<Variable, Text>,
    directory: Option<Directory>,
    requestId: Option<nat>,
    payload: Option<Payload>,
    committed: bool,
    terminalSent: bool,
    closing: bool,
    launch: Option<Launch>,
    out: seq<ReplyEvent>,
    mail: seq<Mail>,
    proof: Proof)

  /** The shared trace. A signature is the position of the phone's signing event. */
  datatype Note =
    | Signed(payload: Payload)
    | Verified(helper: nat, signature: nat)
    | Watched(helper: nat, line: DesktopLine)
    | Took(helper: nat, requestId: nat, time: nat)
    | Started(helper: nat, launch: Launch)

  /** `account` is the name of the enrolled desktop account. */
  datatype World = World(
    machine: nat,
    phoneKey: nat,
    kdeRoute: bool,
    account: Text,
    rows: Rows,
    now: nat,
    trace: seq<Note>)

  /** One attempt to write a reply: accepted by the writer, then drained to the pipe. */
  datatype Output = Output(written: bool, drained: bool, broken: bool)

  /** What the phone is said to have answered; nothing in it is trusted. */
  datatype Answer = NoAnswer | Answer(payload: Payload, certificateMatches: bool, signature: nat)

  datatype Event =
    | Boot(intact: bool)
    | StartRead(line: DesktopLine)
    | WatcherRead(line: DesktopLine)
    | WatcherLost
    | Discovered(found: bool, ended: bool, directory: Option<Directory>, requestId: nat, issued: nat, stored: bool, output: Output)
    | Delivered(ok: bool, output: Output)
    | Approved(answer: Answer, output: Output)
    | ReadySent(output: Output)
    | CommitRead(ended: bool, configured: bool, output: Output)
    | Spawned(ok: bool)
    | Recorded(ok: bool)
    | ReceiptDelivered(ok: bool)
    | ExecutedSent(pid: nat, output: Output)
    | ErrorSent(output: Output)
    | RowCleared
    | WithdrawalDelivered
    | Interrupted
    | OutputBroken
    | Killed

  datatype Move = Move(helper: Helper, world: World)

  const LIFETIME: nat := 120000

  const NO_WISH := Wish([], [], map[], false)

  const NEWBORN := Helper(Booting, None, 0, Watching, NO_WISH, map[], None, None, None, false, false, false, None, [], [], Proof(0, 0, 0, 0, 0))

  // ----- the execution environment -----

  /** Variables that can change what `/bin/sh` finds or runs; the desktop never sets them. */
  predicate Protected(v: Variable) {
    v.Path? || v.Home? || v.User? || v.LogName? || v.Lang? || v.KdesuUser?
  }

  predicate Forwarded(v: Variable) {
    v.Display? || v.WaylandDisplay? || v.BusAddress? || v.RuntimeDirectory? || v.XAuthority?
  }

  const PATH := Ascii("/usr/sbin:/usr/bin:/sbin:/bin")
  const HOME := Ascii("/root")
  const USER := Ascii("root")
  const LANG := Ascii("C.UTF-8")

  /** The variables the desktop cannot choose. */
  function Base(account: Text): (base: map<Variable, Text>)
    ensures forall v :: v in base <==> Protected(v)
  {
    map[Path := PATH, Home := HOME, User := USER, LogName := USER, Lang := LANG, KdesuUser := account]
  }

  predicate ValidStart(wish: Wish) {
    && wish.admissible
    && Plain(wish.application, 80, false)
    && Plain(wish.command, 512, false)
    && forall v :: v in wish.environment ==> Forwarded(v) && Plain(wish.environment[v], 512, false)
  }

  // ----- rows -----

  predicate Terminal(status: RowStatus) {
    status.Consumed? || status.Canceled?
  }

  /** `UPDATE requests SET status='canceled' WHERE status IN ('pending','ready')`. */
  function Sweep(rows: Rows): Rows {
    map id | id in rows :: if Terminal(rows[id].status) then rows[id] else rows[id].(status := Canceled)
  }

  /** `UPDATE requests SET status=… WHERE id=? AND status=…`. */
  function Update(rows: Rows, id: nat, from: RowStatus, to: RowStatus): Rows {
    if id in rows && rows[id].status == from then rows[id := rows[id].(status := to)] else rows
  }

  function CancelRow(rows: Rows, id: nat): Rows {
    Update(Update(rows, id, Pending, Canceled), id, Ready, Canceled)
  }

  // ----- the steps of one process -----

  function Deadline(h: Helper): nat {
    h.startedAt + LIFETIME
  }

  function Send(h: Helper, reply: ReplyEvent, output: Output): (g: Helper)
    ensures g == h.(out := g.out, closing := g.closing)
    ensures g.out == h.out || g.out == h.out + [reply]
  {
    if h.closing || !output.written then h
    else h.(out := h.out + [reply], closing := !output.drained && output.broken)
  }

  predicate Drained(h: Helper, output: Output) {
    !h.closing && output.written && output.drained
  }

  function Abort(h: Helper): Helper {
    h.(phase := Failing)
  }

  predicate Withdrew(h: Helper) {
    h.watch.Saw? && h.watch.line.Spoken? && h.watch.line.event.CancelEvent? && h.desktopId == Some(h.watch.line.id)
  }

  /** The desktop ended while `handle` was waiting for something else. */
  function Desert(h: Helper, output: Output): (g: Helper)
    ensures g == h.(phase := Failing, out := g.out, closing := g.closing, terminalSent := g.terminalSent)
  {
    if Withdrew(h) then Abort(Send(h, CanceledReply, output).(terminalSent := Drained(h, output))) else Abort(h)
  }

  predicate IsCommit(line: DesktopLine, id: Option<nat>) {
    line.Spoken? && line.event.CommitEvent? && line.exact && id == Some(line.id)
  }

  /** A start that passed the checks. */
  function Admit(h: Helper, w: World, wish: Wish): Helper {
    h.(phase := Discovering, startedAt := w.now, wish := wish, environment := Base(w.account) + wish.environment)
  }

  function ReadStart(h: Helper, w: World, line: DesktopLine): Helper {
    if line.Unreadable? then Abort(h)
    else
      var g := h.(desktopId := Some(line.id));
      if !line.event.WishEvent? || !line.exact || !ValidStart(line.event.wish) then Abort(g)
      else Admit(g, w, line.event.wish)
  }

  function MakePayload(h: Helper, w: World, directory: Directory, requestId: nat, issued: nat): Payload
    requires h.desktopId.Some?
  {
    Payload(w.machine, w.phoneKey, requestId, true, h.desktopId.value, h.wish.application, h.wish.command,
            issued, issued + Deadline(h) - w.now, w.kdeRoute,
            Some(Execution(Argv(h.wish.command), 0, 0, directory, h.environment)))
  }

  /** The signed request is built and recorded before the phone hears of it; a used id or any
      other error of the table ends it. */
  function Request(h: Helper, w: World, e: Event): Move
    requires e.Discovered? && h.desktopId.Some? && e.directory.Some?
  {
    var p := MakePayload(h, w, e.directory.value, e.requestId, e.issued);
    var g := h.(directory := e.directory, requestId := Some(e.requestId), payload := Some(p));
    if e.requestId in w.rows || !e.stored then Move(Abort(g), w)
    else Move(g.(phase := Delivering), w.(rows := w.rows[e.requestId := Row(h.desktopId.value, p, Pending)]))
  }

  function Discover(h: Helper, w: World, e: Event): Move
    requires e.Discovered? && h.desktopId.Some?
  {
    if !h.watch.Watching? || e.ended || h.closing || w.now >= Deadline(h) then Move(Desert(h, e.output), w)
    else if !e.found || e.directory.None? then Move(Abort(h), w)
    else Request(h, w, e)
  }

  predicate Verifies(h: Helper, w: World, a: Answer) {
    && a.Answer?
    && h.payload == Some(a.payload)
    && a.certificateMatches
    && a.signature < |w.trace| && w.trace[a.signature] == Signed(a.payload)
    && w.now < Deadline(h)
  }

  function MarkReady(k: nat, h: Helper, w: World, signature: nat): Move
    requires h.requestId.Some?
  {
    Move(h.(phase := Announcing, proof := h.proof.(signature := signature, verifiedAt := |w.trace|)),
         w.(rows := Update(w.rows, h.requestId.value, Pending, Ready), trace := w.trace + [Verified(k, signature)]))
  }

  function Approve(k: nat, h: Helper, w: World, answer: Answer, output: Output): Move
    requires h.requestId.Some?
  {
    if !h.watch.Watching? then Move(Desert(h, output), w)
    else if !Verifies(h, w, answer) then Move(Abort(h), w)
    else MarkReady(k, h, w, answer.signature)
  }

  /** Accepting the commit and consuming the proof are one step. */
  function Consume(k: nat, h: Helper, w: World, id: nat): Move {
    if id in w.rows && w.rows[id].status.Ready? then
      Move(h.(phase := Accepted, committed := true, proof := h.proof.(takenAt := |w.trace|)),
           w.(rows := Update(w.rows, id, Ready, Consumed), trace := w.trace + [Took(k, id, w.now)]))
    else Move(Abort(h), w)
  }

  function AcceptCommit(k: nat, h: Helper, w: World, e: Event): Move
    requires e.CommitRead? && h.requestId.Some?
  {
    if h.watch.Watching? then Move(h, w)
    else if h.watch.Lost? || Withdrew(h) then Move(Desert(h, e.output), w)
    else if !IsCommit(h.watch.line, h.desktopId) then Move(Abort(h), w)
    else if w.now >= Deadline(h) || e.ended || h.closing || !e.configured then Move(Abort(h), w)
    else Consume(k, h, w, h.requestId.value)
  }

  /** The child exists. */
  function Begin(k: nat, h: Helper, w: World, l: Launch): Move {
    Move(h.(phase := Launched, launch := Some(l), proof := h.proof.(launchedAt := |w.trace|)),
         w.(trace := w.trace + [Started(k, l)]))
  }

  function Spawn(k: nat, h: Helper, w: World, ok: bool): Move
    requires h.requestId.Some? && h.directory.Some?
  {
    if ok then Begin(k, h, w, Launch(h.requestId.value, Argv(h.wish.command), 0, 0, h.directory.value, h.environment))
    else Move(Abort(h), w)
  }

  function SendError(h: Helper, output: Output): Helper {
    var g := h.(phase := CleaningUp);
    if h.desktopId.Some? && !h.terminalSent then Send(g, ErrorReply(true, h.committed), output) else g
  }

  function ClearRow(h: Helper, w: World): Move {
    if h.requestId.Some? && !h.committed then
      Move(h.(phase := Withdrawing), w.(rows := CancelRow(w.rows, h.requestId.value)))
    else Move(h.(phase := Gone), w)
  }

  /** The phases in which the coroutine is suspended and can be cancelled. */
  predicate Suspended(phase: Phase) {
    phase.AwaitStart? || phase.Discovering? || phase.Delivering? || phase.Approving? || phase.Announcing? || phase.AwaitCommit?
  }

  predicate WatcherRuns(phase: Phase) {
    phase.Discovering? || phase.Delivering? || phase.Approving? || phase.Announcing? || phase.AwaitCommit?
  }

  /** One step of process `k`; an event that its phase does not expect changes nothing.
      Locking is `Step` in `AuthorityRuns`. */
  function Step(k: nat, h: Helper, w: World, e: Event): Move {
    var stay := Move(h, w);
    match e
    case Boot(_) => stay
    case StartRead(line) => if h.phase.AwaitStart? then Move(ReadStart(h, w, line), w) else stay
    case WatcherRead(line) =>
      if WatcherRuns(h.phase) && h.watch.Watching? then
        Move(h.(watch := Saw(line), proof := h.proof.(watchedAt := |w.trace|)), w.(trace := w.trace + [Watched(k, line)]))
      else stay
    case WatcherLost => if WatcherRuns(h.phase) && h.watch.Watching? then Move(h.(watch := Lost), w) else stay
    case Discovered(_, _, _, _, _, _, _) => if h.phase.Discovering? && h.desktopId.Some? then Discover(h, w, e) else stay
    case Delivered(ok, output) =>
      if !h.phase.Delivering? then stay
      else if !h.watch.Watching? then Move(Desert(h, output), w)
      else Move(if ok then h.(phase := Approving) else Abort(h), w)
    case Approved(answer, output) =>
      if h.phase.Approving? && h.requestId.Some? then Approve(k, h, w, answer, output) else stay
    case ReadySent(output) =>
      if !h.phase.Announcing? then stay
      else
        var g := Send(h, ReadyReply, output);
        Move(if Drained(h, output) then g.(phase := AwaitCommit) else Abort(g), w)
    case CommitRead(_, _, _) => if h.phase.AwaitCommit? && h.requestId.Some? then AcceptCommit(k, h, w, e) else stay
    case Spawned(ok) =>
      if h.phase.Accepted? && h.requestId.Some? && h.directory.Some? then Spawn(k, h, w, ok) else stay
    case Recorded(ok) => if h.phase.Launched? then Move(if ok then h.(phase := Confirming) else Abort(h), w) else stay
    case ReceiptDelivered(ok) =>
      if h.phase.Confirming? then Move(h.(phase := Reporting(ok), mail := h.mail + [ReceiptMail]), w) else stay
    case ExecutedSent(pid, output) =>
      if !h.phase.Reporting? then stay
      else
        var g := Send(h, ExecutedReply(Some(pid as real)), output).(terminalSent := Drained(h, output));
        Move(if Drained(h, output) && h.phase.delivered then g.(phase := CleaningUp) else Abort(g), w)
    case ErrorSent(output) => if h.phase.Failing? then Move(SendError(h, output), w) else stay
    case RowCleared => if h.phase.CleaningUp? then ClearRow(h, w) else stay
    case WithdrawalDelivered =>
      if h.phase.Withdrawing? then Move(h.(phase := Gone, mail := h.mail + [CancelMail]), w) else stay
    case Interrupted =>
      if Suspended(h.phase) then Move(Abort(h), w)
      else if h.phase.Confirming? then Move(h.(phase := Reporting(false), mail := h.mail + [ReceiptMail]), w)
      else stay
    case OutputBroken => Move(h.(closing := true), w)
    case Killed => Move(h.(phase := Gone), w)
  }
}
