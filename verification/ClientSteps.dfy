/** `PhoneAuthClient`: the dialog's side of one private pipe to a helper, with the
    restart added by the Retry patch. Every Qt signal is the last action of the code
    that emits it, so each handler returns the signal and its caller delivers it. */
module ClientSteps {
  import opened Protocol

  datatype State = Idle | Starting | Waiting | Cancelling | Committed | Finished | Destroyed

  datatype Status = NotRunning | Launching | Running

  /** A QProcess, which its client alone refers to. `writable` turns false for good
      when the write channel is closed or breaks. */
  datatype Process = Process(id: nat, status: Status, writable: bool, sent: seq<Line>)

  datatype Signal =
    | WaitingForPhone
    | ReadyToCommit
    | LaunchAcknowledged
    | RequestCanceled
    | PhoneUnavailable
    | LaunchUncertain

  /** A verdict on one attempt: the attempt's UUID and the terminal signal. */
  datatype Verdict = Verdict(id: nat, signal: Signal)

  datatype Client = Client(
    state: State,
    requestId: nat,
    process: Option<Process>,
    released: seq<Process>,
    startSent: bool,
    ready: bool,
    committed: bool,
    cancelRequested: bool,
    withdrawing: bool,
    terminationAttempted: bool,
    failed: bool,
    startTimer: bool,
    lifetimeTimer: bool,
    graceTimer: bool,
    verdicts: seq<Verdict>)

  datatype Turn = Turn(client: Client, signal: Option<Signal>)

  const INITIAL := Client(Idle, 0, None, [], false, false, false, false, false, false, false, false, false, false, [])

  /** What can happen to a client, in any order. */
  datatype Event =
    | StartCall(eligible: bool, usable: bool)
    | CommitCall
    | CancelCall
    | ProcessStarted
    | ProcessStopped
    | PipeBroken
    | ProcessExited
    | ProcessError
    | StartTimeout
    | LifetimeTimeout
    | GraceTimeout
    | ReplyLine(reply: Reply)
    | OversizedReply
    | Destroy

  predicate Soft(signal: Signal) {
    signal.RequestCanceled? || signal.PhoneUnavailable?
  }

  predicate Final(signal: Signal) {
    Soft(signal) || signal.LaunchAcknowledged? || signal.LaunchUncertain?
  }

  /** A terminal signal is the last thing a client does in its attempt. */
  predicate LastWord(turn: Turn) {
    turn.signal.Some? && Final(turn.signal.value) ==> !Pending(turn.client)
  }

  // ----- what each handler does to the client -----

  function Write(p: Process, line: Line): Process {
    if p.writable then p.(sent := p.sent + [line]) else p
  }

  function Close(p: Process): Process {
    p.(writable := false)
  }

  predicate Pending(c: Client) {
    c.state.Starting? || c.state.Waiting? || c.state.Cancelling?
  }

  predicate Alive(c: Client) {
    c.process.Some? && !c.process.value.status.NotRunning?
  }

  function Release(c: Client): Client {
    if c.process.None? then c
    else c.(released := c.released + [Close(c.process.value)], process := None)
  }

  function Finish(c: Client): Client {
    Release(c.(state := Finished, startTimer := false, lifetimeTimer := false, graceTimer := false))
  }

  /** The verdict goes on record. */
  function Judge(c: Client, signal: Signal): Client {
    c.(verdicts := c.verdicts + [Verdict(c.requestId, signal)])
  }

  function Conclude(c: Client, signal: Signal): (turn: Turn)
    ensures LastWord(turn)
  {
    Turn(Finish(Judge(c, signal)), Some(signal))
  }

  function Withdraw(c: Client): Client {
    if c.withdrawing || c.process.None? then c
    else
      var p := c.process.value;
      var q := if c.startSent then Write(p, CancelLine(c.requestId)) else p;
      c.(withdrawing := true, process := Some(Close(q)), graceTimer := true)
  }

  function Fail(c: Client): (turn: Turn)
    ensures LastWord(turn)
  {
    if c.state.Finished? then Turn(c, None)
    else if !c.committed && Alive(c) then
      Turn(Withdraw(c.(failed := true, state := Cancelling)), None)
    else
      Conclude(c, if c.committed then LaunchUncertain else if c.cancelRequested then RequestCanceled else PhoneUnavailable)
  }

  function Cancel(c: Client): (turn: Turn)
    ensures LastWord(turn)
  {
    if c.state.Finished? || c.committed || c.cancelRequested then Turn(c, None)
    else
      var d := c.(cancelRequested := true, state := Cancelling);
      if !Alive(d) then Conclude(d, RequestCanceled) else Turn(Withdraw(d), None)
  }

  function SendCommit(c: Client): Client
    requires c.process.Some?
  {
    c.(committed := true, state := Committed, lifetimeTimer := true,
       process := Some(Write(c.process.value, CommitLine(c.requestId))))
  }

  function SendStart(c: Client): Client
    requires c.process.Some?
  {
    c.(startTimer := false, state := Waiting, startSent := true,
       process := Some(Write(c.process.value.(status := Running), StartLine(c.requestId))))
  }

  function Commit(c: Client): (turn: Turn)
    ensures LastWord(turn)
  {
    if !c.state.Waiting? || !c.ready || c.process.None? then Turn(c, None)
    else
      var d := SendCommit(c);
      if c.process.value.writable then Turn(d, None) else Fail(d)
  }

  /** A helper process is being started. */
  function Launch(d: Client): Client {
    d.(process := Some(Process(d.requestId, Launching, true, [])), state := Starting, startTimer := true, lifetimeTimer := true)
  }

  /** The flags of an attempt that has not begun. */
  function Clear(c: Client): Client {
    Forget(c.(startSent := false, ready := false, cancelRequested := false))
  }

  function Forget(c: Client): Client {
    c.(withdrawing := false, terminationAttempted := false, failed := false)
  }

  function Restart(c: Client): Client {
    if c.state.Finished? && !c.committed then
      Clear(c.(state := Idle, requestId := c.requestId + 1))
    else c
  }

  function Start(c: Client, eligible: bool, usable: bool): (turn: Turn)
    ensures LastWord(turn)
  {
    var d := Restart(c);
    if !d.state.Idle? then Turn(d, None)
    else if !eligible || !usable then Fail(d)
    else Turn(Launch(d), None)
  }

  function Started(c: Client): (turn: Turn)
    ensures LastWord(turn)
  {
    if c.process.None? || !c.process.value.status.Launching? then Turn(c, None)
    else
      if c.state.Cancelling? then
        Turn(c.(startTimer := false, process := Some(Close(c.process.value.(status := Running)))), None)
      else
        var d := SendStart(c);
        if c.process.value.writable then Turn(d, Some(WaitingForPhone)) else Fail(d)
  }

  predicate ValidPid(pid: real) {
    1.0 <= pid <= 2147483647.0 && pid == pid.Floor as real
  }

  /** One complete line, as the loop of `readMessages` treats it. */
  function ReadReply(c: Client, reply: Reply): (turn: Turn)
    ensures LastWord(turn)
  {
    if c.state.Finished? || c.process.None? then Turn(c, None)
    else if reply.Garbage? || reply.id != c.requestId then Fail(c)
    else
      match reply.event
      case ReadyReply =>
        if c.state.Cancelling? then Turn(c, None)
        else if c.state.Waiting? && !c.ready then Turn(c.(ready := true), Some(ReadyToCommit))
        else Fail(c)
      case CanceledReply =>
        if !c.committed && Pending(c) then
          Conclude(c, if !c.cancelRequested && c.failed then PhoneUnavailable else RequestCanceled)
        else Fail(c)
      case ExecutedReply(pid) =>
        if c.state.Committed? && pid.Some? && ValidPid(pid.value) then Conclude(c, LaunchAcknowledged) else Fail(c)
      case ErrorReply(hasMessage, _) =>
        if hasMessage && !c.committed then Conclude(c, if c.cancelRequested then RequestCanceled else PhoneUnavailable)
        else Fail(c)
      case UnknownReply => Fail(c)
  }

  function SetTimers(c: Client, start: bool, lifetime: bool, grace: bool, terminated: bool): Client {
    c.(startTimer := start, lifetimeTimer := lifetime, graceTimer := grace, terminationAttempted := terminated)
  }

  function Grace(c: Client): Client {
    var act := c.graceTimer && Alive(c) && !c.committed && !c.terminationAttempted;
    SetTimers(c, c.startTimer, c.lifetimeTimer, act, c.terminationAttempted || act)
  }

  /** The destructor lets go of the helper. */
  function Discard(c: Client): Client {
    Release(c).(state := Destroyed)
  }

  function Expire(c: Client): (turn: Turn)
    ensures LastWord(turn)
  {
    var canceled := Cancel(c);
    Turn(Discard(canceled.client), canceled.signal)
  }

  function WithProcess(c: Client, p: Process): Client {
    c.(process := Some(p))
  }

  /** The environment ends the process, or breaks its pipe. */
  function Stopped(c: Client): Client {
    if c.process.Some? then WithProcess(c, c.process.value.(status := NotRunning)) else c
  }

  function Broken(c: Client): Client {
    if c.process.Some? then WithProcess(c, Close(c.process.value)) else c
  }

  function StopStartTimer(c: Client): Client {
    SetTimers(c, false, c.lifetimeTimer, c.graceTimer, c.terminationAttempted)
  }

  function StopLifetimeTimer(c: Client): Client {
    SetTimers(c, c.startTimer, false, c.graceTimer, c.terminationAttempted)
  }

  function Step(c: Client, e: Event): (turn: Turn)
    ensures LastWord(turn)
  {
    if c.state.Destroyed? then Turn(c, None)
    else
      match e
      case StartCall(eligible, usable) => Start(c, eligible, usable)
      case CommitCall => Commit(c)
      case CancelCall => Cancel(c)
      case ProcessStarted => Started(c)
      case ProcessStopped => Turn(Stopped(c), None)
      case PipeBroken => Turn(Broken(c), None)
      case ProcessExited => if c.process.None? then Turn(c, None) else Fail(Stopped(c))
      case ProcessError => if c.process.None? then Turn(c, None) else Fail(c)
      case StartTimeout => if c.startTimer then Fail(StopStartTimer(c)) else Turn(c, None)
      case LifetimeTimeout => if c.lifetimeTimer then Fail(StopLifetimeTimer(c)) else Turn(c, None)
      case GraceTimeout => Turn(Grace(c), None)
      case ReplyLine(reply) => ReadReply(c, reply)
      case OversizedReply => if c.process.None? then Turn(c, None) else Fail(c)
      case Destroy => Expire(c)
  }

  function Run(c: Client, events: seq<Event>): Client
    decreases |events|
  {
    if events == [] then c else Run(Step(c, events[0]).client, events[1..])
  }

  // ----- the invariant -----

  /** Every helper process of this client, oldest first. */
  function Processes(c: Client): seq<Process> {
    c.released + if c.process.Some? then [c.process.value] else []
  }

  /** Nothing, `start`, or `start cancel`. */
  predicate Withdrawn(sent: seq<Line>, id: nat) {
    && |sent| <= 2
    && (|sent| > 0 ==> sent[0] == StartLine(id))
    && (|sent| > 1 ==> sent[1] == CancelLine(id))
  }

  /** `start`, or `start commit`. */
  predicate Chosen(sent: seq<Line>, id: nat) {
    && 1 <= |sent| <= 2
    && sent[0] == StartLine(id)
    && (|sent| > 1 ==> sent[1] == CommitLine(id))
  }

  /** The only four inputs a helper can ever read. */
  predicate InLanguage(p: Process) {
    Withdrawn(p.sent, p.id) || Chosen(p.sent, p.id)
  }

  predicate Shape(c: Client) {
    && (c.process.Some? <==> Pending(c) || c.state.Committed?)
    && (c.process.Some? ==> c.process.value.id == c.requestId)
    && match c.state
       case Idle => !c.committed && !c.startSent && !c.ready && !c.withdrawing && !c.cancelRequested
       case Starting => !c.committed && !c.startSent && !c.withdrawing && !c.ready && !c.cancelRequested && |c.process.value.sent| == 0
       case Waiting =>
         && !c.committed && c.startSent && !c.withdrawing && !c.cancelRequested
         && |c.process.value.sent| == 1 && c.process.value.sent[0] == StartLine(c.requestId) && !c.process.value.status.Launching?
       case Cancelling => !c.committed && c.withdrawing && Withdrawn(c.process.value.sent, c.requestId)
       case Committed =>
         && c.committed && Chosen(c.process.value.sent, c.requestId) && !c.process.value.status.Launching?
       case Finished => true
       case Destroyed => true
  }

  /** Released helpers have increasing UUIDs, older than the current attempt while it
      is `open`, and none of them was sent a commit, except that the last one may have
      been when it belonged to the committed attempt (`spent`). */
  predicate HistoryOf(rs: seq<Process>, id: nat, open: bool, spent: bool) {
    && (forall k :: 0 <= k < |rs| ==> rs[k].id <= id && (open ==> rs[k].id < id))
    && (forall j, k :: 0 <= j < k < |rs| ==> rs[j].id < rs[k].id)
    && (forall k :: 0 <= k < |rs| && !(spent && k == |rs| - 1) ==> Withdrawn(rs[k].sent, rs[k].id))
    && (spent ==> |rs| > 0 && rs[|rs| - 1].id == id && Chosen(rs[|rs| - 1].sent, id))
  }

  predicate Open(c: Client) {
    !c.state.Finished? && !c.state.Destroyed?
  }

  predicate History(c: Client) {
    HistoryOf(c.released, c.requestId, Open(c), c.committed && c.process.None?)
  }

  /** Verdicts have increasing UUIDs, so an attempt has at most one, and none while it
      is `open`; a committed attempt is never called canceled or unavailable. */
  predicate VerdictsOf(vs: seq<Verdict>, id: nat, open: bool, committed: bool) {
    && (forall i :: 0 <= i < |vs| ==> vs[i].id <= id && Final(vs[i].signal) && (open ==> vs[i].id < id))
    && (forall i, j :: 0 <= i < j < |vs| ==> vs[i].id < vs[j].id)
    && (forall i :: 0 <= i < |vs| ==> if Soft(vs[i].signal) then committed ==> vs[i].id < id else committed && vs[i].id == id)
  }

  predicate Judged(c: Client) {
    && VerdictsOf(c.verdicts, c.requestId, Open(c), c.committed)
    && (c.state.Finished? ==> |c.verdicts| > 0 && c.verdicts[|c.verdicts| - 1].id == c.requestId)
  }

  predicate Inv(c: Client) {
    Shape(c) && History(c) && Judged(c)
  }
}
