/** The app's back stack. `MainActivity` is `singleTop`, so a notification that opens the app
    over another screen of it starts a second instance; the first stays underneath with all
    its fields and comes back when the one above is left. */
module BackStackSteps {
  import opened Protocol
  import M = MailboxSteps
  import V = ActivitySteps

  /** `phone` is the mailbox, the key and the instance that acts; `covered` are the others. */
  datatype Stack = Stack(phone: V.Phone, covered: seq<V.Screen>)

  /** `Cover` starts an instance over the acting one; `Return` hands over to a covered one,
      with or without the end of the acting one; `Forget` ends a covered one; `Prepared` is
      the only callback that reaches a stopped instance. */
  datatype Event =
    | Here(event: V.Event)
    | Cover(id: Option<nat>)
    | Return(k: nat, closed: bool)
    | Forget(k: nat)
    | Prepared(k: nat, busy: bool, keyed: bool)

  function Initial(m: M.Mailbox): Stack {
    Stack(V.Initial(m), [])
  }

  function Without(covered: seq<V.Screen>, k: nat): (rest: seq<V.Screen>)
    requires k < |covered|
    ensures forall s :: s in rest ==> s in covered
  {
    covered[..k] + covered[k + 1..]
  }

  /** All instances share the main thread, so nothing of this happens during a poll. */
  function Step(t: Stack, e: Event): Stack {
    match e
    case Here(event) => t.(phone := V.Step(t.phone, event))
    case _ => if t.phone.polling.Some? then t else Arrange(t, e)
  }

  function Arrange(t: Stack, e: Event): Stack {
    var s := t.phone.screen;
    match e
    case Here(_) => t
    case Cover(id) => Stack(t.phone.(screen := V.BLANK.(openedId := id, attempts := s.attempts)), t.covered + [s])
    case Return(k, closed) =>
      if k >= |t.covered| then t
      else Stack(t.phone.(screen := t.covered[k]), if closed then Without(t.covered, k) else t.covered[k := s])
    case Forget(k) => if k >= |t.covered| then t else t.(covered := Without(t.covered, k))
    case Prepared(k, busy, keyed) =>
      if k >= |t.covered| then t else t.(covered := t.covered[k := t.covered[k].(busy := busy, keyed := keyed)])
  }

  function Run(t: Stack, events: seq<Event>): Stack
    decreases |events|
  {
    if events == [] then t else Run(Step(t, events[0]), events[1..])
  }

  // ----- when an instance may come back -----

  /** What can be read when an instance comes back: nothing is up for approval in it, or
      `response.json` does not answer its request, the request in the slot has not been
      signed, and its own request was not signed in the stay it was read in or has expired. */
  predicate Harmless(s: V.Screen, p: V.Phone) {
    V.Current(s).Some? ==>
      var o := V.Current(s).value;
      && (p.mailbox.response.None? || p.mailbox.response.value.requestId != V.Asked(o).requestId)
      && !V.SignedIn(p.log, p.mailbox.writes)
      && (V.SignedIn(p.log, o.stay) ==> p.mailbox.now >= o.challenge.deadline)
  }

  /** Every instance that comes back in the run is harmless then. */
  predicate Careful(t: Stack, events: seq<Event>)
    decreases |events|
  {
    events != [] ==>
      && (events[0].Return? && t.phone.polling.None? && events[0].k < |t.covered| ==> Harmless(t.covered[events[0].k], t.phone))
      && Careful(Step(t, events[0]), events[1..])
  }
}
