/** The dialog, its client, the private pipes and the authority's processes in one state.
    The dialog's helpers run next to any number of helpers that other desktops drive as
    they like. */
module ExecutionSteps {
  import opened Protocol
  import opened TextChecks
  import A = AuthoritySteps
  import R = AuthorityRuns
  import C = ClientSteps
  import D = DialogSteps

  /** `mine[p]` is the helper behind the client's process `p`; `wish` is what every
      `start` line of this dialog asks for. */
  datatype Scene = Scene(wish: A.Wish, desk: D.Desk, auth: R.System, mine: seq<nat>)

  datatype Event = AtDesk(desk: D.Event) | AtAuthority(auth: R.SystemEvent)

  function Initial(wish: A.Wish, machine: nat, phoneKey: nat, kdeRoute: bool, account: Text): Scene {
    Scene(wish, D.INITIAL, R.Initial(machine, phoneKey, kdeRoute, account), [])
  }

  /** How a line the client wrote arrives. */
  function Arrives(wish: A.Wish, line: Line): A.DesktopLine {
    match line
    case StartLine(id) => A.Spoken(id, A.WishEvent(wish), true)
    case CommitLine(id) => A.Spoken(id, A.CommitEvent, true)
    case CancelLine(id) => A.Spoken(id, A.CancelEvent, true)
  }

  /** A helper reads the lines its client wrote, in order; either read may fail instead. */
  predicate MayRead(wish: A.Wish, sent: seq<Line>, e: A.Event) {
    match e
    case StartRead(line) => line.Unreadable? || (|sent| > 0 && line == Arrives(wish, sent[0]))
    case WatcherRead(line) => line.Unreadable? || (|sent| > 1 && line == Arrives(wish, sent[1]))
    case _ => true
  }

  predicate MayHappen(s: Scene, e: R.SystemEvent) {
    e.HelperEvent? ==>
      forall p :: 0 <= p < |s.mine| && p < |C.Processes(s.desk.client)| && s.mine[p] == e.k ==>
        MayRead(s.wish, C.Processes(s.desk.client)[p].sent, e.event)
  }

  /** The client hears only replies its current helper wrote, or noise. */
  predicate MayHear(helper: A.Helper, reply: Reply) {
    reply.Garbage? || (helper.desktopId == Some(reply.id) && reply.event in helper.out)
  }

  predicate MayBeHeard(s: Scene, e: D.Event) {
    e.ClientEvent? && e.event.ReplyLine? && s.desk.client.process.Some? ==>
      |s.mine| > 0 && s.mine[|s.mine| - 1] < |s.auth.helpers| && MayHear(s.auth.helpers[s.mine[|s.mine| - 1]], e.event.reply)
  }

  /** Each new process of the client is a new helper. */
  function Adopt(s: Scene): Scene
    decreases |C.Processes(s.desk.client)| - |s.mine|
  {
    if |s.mine| >= |C.Processes(s.desk.client)| then s
    else Adopt(Scene(s.wish, s.desk, R.Step(s.auth, R.Fork), s.mine + [|s.auth.helpers|]))
  }

  /** An event that the pipes rule out does not happen. */
  function Step(s: Scene, e: Event): Scene {
    match e
    case AtDesk(event) => if MayBeHeard(s, event) then Adopt(s.(desk := D.Step(s.desk, event))) else s
    case AtAuthority(event) => if MayHappen(s, event) then s.(auth := R.Step(s.auth, event)) else s
  }

  function Run(s: Scene, events: seq<Event>): Scene
    decreases |events|
  {
    if events == [] then s else Run(Step(s, events[0]), events[1..])
  }
}
