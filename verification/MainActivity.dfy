/** `MainActivity` itself: the fields of the activity and its callbacks on the main thread,
    each proved to move the phone as `ActivitySteps` says; and the back stack of several. */
module PhoneActivity {
  import opened Protocol
  import opened TextChecks
  import M = MailboxSteps
  import opened PhoneMailbox
  import opened V = ActivitySteps
  import W = ActivityProofs

  /** The signing key, of which there is one. */
  class SigningKey {
    /** What the key has signed; an ideal signature is a position in it. */
    var log: seq<Signing>

    constructor ()
      ensures log == []
    {
      log := [];
    }
  }

  class MainActivity {
    const bridge: Bridge
    const key: SigningKey
    var pending: Option<Offer>
    var active: Option<Attempt>
    var awaiting: Option<Offer>
    var signedResponse: Option<M.Response>
    var seenEnvelope: Option<M.Envelope>
    var openedRequestId: Option<nat>
    var stopped: bool
    var busy: bool
    var keyed: bool
    var timer: bool
    var attempts: nat
    var polling: Option<Snapshot>

    ghost function Own(): Screen
      reads this
    {
      Screen(pending, active, awaiting, signedResponse, seenEnvelope, openedRequestId, stopped, busy, keyed, timer, attempts)
    }

    ghost function View(now: int): Phone
      reads this, bridge, key
    {
      Phone(bridge.View(now), Own(), polling, key.log, bridge.answers)
    }

    constructor (bridge: Bridge, key: SigningKey, id: Option<nat>, attempts: nat)
      ensures this.bridge == bridge && this.key == key && polling.None?
      ensures Own() == BLANK.(openedId := id, attempts := attempts)
    {
      this.bridge, this.key, this.attempts := bridge, key, attempts;
      pending, active, awaiting, signedResponse, seenEnvelope, openedRequestId := None, None, None, None, None, id;
      stopped, busy, keyed, timer, polling := true, false, false, false, None;
    }

    /** A new activity in the place of this one. */
    method OnCreate(id: Option<nat>)
      modifies this`pending, this`active, this`awaiting, this`signedResponse, this`seenEnvelope, this`openedRequestId
      modifies this`stopped, this`busy, this`keyed, this`timer
      ensures Own() == BLANK.(openedId := id, attempts := attempts)
    {
      pending, active, awaiting, signedResponse, seenEnvelope, openedRequestId := None, None, None, None, None, id;
      stopped, busy, keyed, timer := true, false, false, false;
    }

    method Decline(o: Offer, now: int)
      modifies bridge`response, bridge`answers
      ensures View(now) == V.Answer(old(View(now)), M.DeclinedResponse(Asked(o).requestId))
    {
      bridge.Declined(Asked(o));
    }

    method Cancel(now: int)
      modifies this`active, this`pending, this`timer, bridge`response, bridge`answers
      ensures View(now) == V.Cancel(old(View(now)))
    {
      var request := if active.Some? then Some(active.value.offer) else pending;
      if request.None? {
        return;
      }
      Decline(request.value, now);
      active, pending, timer := None, None, false;
    }

    method Abandon(now: int)
      modifies this`pending, this`awaiting
      ensures View(now) == V.Abandon(old(View(now)))
    {
      pending, awaiting := None, None;
    }

    /** The part of `pollComputer` for an envelope it has not seen; `done` when it returns or throws. */
    method Consider(e: M.Envelope, stay: nat, found: Findings, now: int) returns (done: bool)
      modifies this`pending, this`awaiting, this`openedRequestId, this`signedResponse
      ensures V.Consider(old(View(now)), e, stay, found) == if done then Done(View(now)) else Through(View(now))
    {
      done := true;
      var v := bridge.Validate(e, now, false);
      if !v.Valid? {
        Abandon(now);
        return;
      }
      var expected := openedRequestId;
      openedRequestId := None;
      var id := e.payload.requestId;
      if (expected.Some? && expected.value != id) || found.withdrawn.Throws? {
        Abandon(now);
        return;
      }
      if found.withdrawn.Yes? {
        return;
      }
      if !found.icon {
        Abandon(now);
        return;
      }
      done := Sort(Offer(v.challenge, stay), now);
    }

    /** Whether the request is to be approved, was signed already, or was declined. */
    method Sort(o: Offer, now: int) returns (done: bool)
      modifies this`pending, this`awaiting, this`signedResponse
      ensures V.Sort(old(View(now)), o) == if done then Done(View(now)) else Through(View(now))
    {
      var previous := bridge.response;
      var p := Asked(o);
      if previous.None? || previous.value.requestId != p.requestId {
        pending := Some(o);
      } else if previous.value.SignedResponse? {
        if previous.value.payload != p || !Verifies(key.log, p, previous.value.signature) {
          Abandon(now);
          return true;
        }
        awaiting, signedResponse := Some(o), previous;
      }
      done := false;
    }

    method Await(found: Findings, now: int)
      modifies this`pending, this`awaiting
      ensures View(now) == V.Await(old(View(now)), found)
    {
      if awaiting.None? {
        return;
      }
      match found.receipt {
        case Throws => Abandon(now);
        case Yes => awaiting := None;
        case No => if now >= awaiting.value.challenge.deadline + GRACE { awaiting := None; }
      }
    }

    method Review(found: Findings, now: int)
      modifies this`pending, this`awaiting, this`active, this`timer, bridge`response, bridge`answers
      ensures View(now) == V.Review(old(View(now)), found)
    {
      if pending.Some? && now >= pending.value.challenge.deadline {
        Cancel(now);
      }
      Recheck(found, now);
    }

    method Recheck(found: Findings, now: int)
      modifies this`pending, this`awaiting, this`active, this`timer, bridge`response, bridge`answers
      ensures View(now) == V.Recheck(old(View(now)), found)
    {
      if pending.None? && awaiting.None? {
        Await(found, now);
        return;
      }
      match found.stillWithdrawn {
        case Throws => Abandon(now);
        case No => Await(found, now);
        case Yes =>
          Cancel(now);
          awaiting := None;
          Await(found, now);
      }
    }

    method PollRead(now: int)
      requires polling.None?
      modifies this`polling
      ensures View(now) == V.Act(old(View(now)), V.PollRead)
    {
      if !stopped && keyed && !busy {
        polling := Some(Snapshot(bridge.request, bridge.writes));
      }
    }

    method Look(snapshot: Snapshot, found: Findings, now: int) returns (done: bool)
      modifies this`pending, this`awaiting, this`active, this`timer, this`seenEnvelope, this`openedRequestId
      modifies this`signedResponse, bridge`response, bridge`answers
      ensures V.Look(old(View(now)), snapshot, found) == if done then Done(View(now)) else Through(View(now))
    {
      if snapshot.request.None? || snapshot.request == seenEnvelope {
        return false;
      }
      Cancel(now);
      seenEnvelope, pending, awaiting := snapshot.request, None, None;
      done := Consider(snapshot.request.value, snapshot.stay, found, now);
    }

    method PollFinish(found: Findings, now: int)
      requires polling.Some?
      modifies this, key, bridge`response, bridge`answers
      ensures View(now) == V.Step(old(View(now)), V.PollFinish(found))
    {
      var done := Look(polling.value, found, now);
      if !done {
        Review(found, now);
      }
      polling := None;
    }

    method Begin(now: int)
      modifies this, key, bridge`response, bridge`answers
      ensures View(now) == V.Begin(old(View(now)))
    {
      if active.Some? || busy || stopped || pending.None? {
        return;
      }
      if now >= pending.value.challenge.deadline {
        Cancel(now);
        return;
      }
      active := Some(Attempt(pending.value, attempts, None));
      timer, attempts := true, attempts + 1;
    }

    method Press(now: int)
      modifies this, key, bridge`response, bridge`answers
      ensures View(now) == V.PressButton(old(View(now)))
    {
      if !keyed {
        busy := busy || !stopped;
      } else if awaiting.None? || !Asked(awaiting.value).kdeRoute {
        Begin(now);
      }
    }

    predicate IsActive(serial: nat)
      reads this
      ensures IsActive(serial) == V.IsActive(Own(), serial)
    {
      active.Some? && active.value.serial == serial
    }

    method Prompt(serial: nat, shown: bool, now: int)
      modifies this, key, bridge`response, bridge`answers
      ensures View(now) == V.ShowPrompt(old(View(now)), serial, shown)
    {
      if !IsActive(serial) || stopped {
        return;
      }
      if now >= active.value.offer.challenge.deadline || !shown {
        Cancel(now);
      } else {
        active := Some(active.value.(shown := Some(Asked(active.value.offer).command)));
      }
    }

    /** `completeLocked`; `later` is the time when it returns. */
    method Complete(serial: nat, authorized: bool, took: nat, verified: bool, now: int) returns (later: int)
      modifies this, key, bridge`response, bridge`answers
      ensures View(later) == V.Complete(old(View(now)), serial, authorized, took, verified)
    {
      later := now;
      if !IsActive(serial) || stopped {
        return;
      }
      var o := active.value.offer;
      if now >= o.challenge.deadline || !M.Canceled(Asked(o), bridge.cancel).No? || !authorized || active.value.shown.None? {
        Cancel(now);
      } else {
        later := now + took;
        Sign(o, active.value.shown.value, serial, took, verified, now);
      }
    }

    method Sign(o: Offer, shown: Text, serial: nat, took: nat, verified: bool, now: int)
      modifies this, key, bridge`response, bridge`answers
      ensures View(now + took) == V.Sign(old(View(now)), o, shown, serial, took, verified)
    {
      key.log := key.log + [Signing(Asked(o), o.stay, serial, now, shown)];
      if now + took >= o.challenge.deadline || !verified {
        Cancel(now + took);
      } else {
        Publish(o, now + took);
      }
    }

    method Publish(o: Offer, now: int)
      requires |key.log| > 0
      modifies this, key, bridge`response, bridge`answers
      ensures View(now) == V.Publish(old(View(now)), o)
    {
      bridge.Signed(Asked(o), |key.log| - 1);
      signedResponse := bridge.response;
      awaiting, active, pending, timer := Some(o), None, None, false;
    }

    method OnNewIntent(id: Option<nat>, now: int)
      modifies this`openedRequestId, this`seenEnvelope
      ensures Own() == V.Open(old(Own()), id)
    {
      openedRequestId := None;
      if id.Some? && (pending.None? || id.value != Asked(pending.value).requestId)
                  && (awaiting.None? || id.value != Asked(awaiting.value).requestId) {
        openedRequestId, seenEnvelope := id, None;
      }
    }

    /** The key is being prepared, or is ready. */
    method OnPrepared(busy: bool, keyed: bool, now: int)
      modifies this`busy, this`keyed
      ensures View(now) == V.Act(old(View(now)), V.Prepare(busy, keyed))
    {
      this.busy, this.keyed := busy, keyed;
    }

    method OnStart(now: int)
      modifies this`stopped
      ensures View(now) == V.Act(old(View(now)), V.Start)
    {
      stopped := false;
    }

    method OnStop(now: int)
      modifies this`stopped, this`pending, this`active, this`timer, bridge`response, bridge`answers
      ensures View(now) == V.Halt(old(View(now)))
    {
      stopped := true;
      if active.Some? {
        Cancel(now);
      }
    }

    /** The prompt's negative button, or an error it reports. */
    method OnDeclined(serial: nat, now: int)
      modifies this`pending, this`active, this`timer, bridge`response, bridge`answers
      ensures View(now) == if V.IsActive(old(Own()), serial) then V.Cancel(old(View(now))) else old(View(now))
    {
      if IsActive(serial) {
        Cancel(now);
      }
    }

    method OnFailed(serial: nat, now: int)
      modifies this`pending, this`active, this`timer, bridge`response, bridge`answers
      ensures View(now) == if V.IsActive(old(Own()), serial) && !stopped then V.Cancel(old(View(now))) else old(View(now))
    {
      if IsActive(serial) && !stopped {
        Cancel(now);
      }
    }

    /** The delayed `timeout`. */
    method OnTimeout(now: int)
      modifies this`pending, this`active, this`timer, bridge`response, bridge`answers
      ensures View(now) == V.Lapse(old(View(now)))
    {
      if timer {
        timer := false;
        Cancel(now);
      }
    }

    /** One turn of the main thread; deliveries come in by the transports. What the theorems
        ask of the phone holds after it. */
    method Handle(e: V.Event, now: int) returns (later: int)
      requires !e.Delivered?
      modifies this, key, bridge`response, bridge`answers
      ensures View(later) == V.Step(old(View(now)), e)
      ensures old(W.Sound(View(now))) ==> W.Sound(View(later)) && old(key.log) <= key.log
      ensures old(W.Inv(View(now))) ==> W.Inv(View(later))
    {
      ghost var before := View(now);
      later := Dispatch(e, now);
      if W.Sound(before) {
        W.StepKeepsSound(before, e);
      }
      if W.Inv(before) {
        W.StepKeepsInv(before, e);
      }
    }

    method Dispatch(e: V.Event, now: int) returns (later: int)
      requires !e.Delivered?
      modifies this, key, bridge`response, bridge`answers
      ensures View(later) == V.Step(old(View(now)), e)
    {
      later := now;
      if e.PollFinish? {
        if polling.Some? {
          PollFinish(e.found, now);
        }
      } else if polling.None? {
        later := Act(e, now);
      }
    }

    method Act(e: V.Event, now: int) returns (later: int)
      requires !e.Delivered? && !e.PollFinish? && polling.None?
      modifies this, key, bridge`response, bridge`answers
      ensures View(later) == V.Act(old(View(now)), e)
    {
      later := now;
      if e.Prompt? || e.Succeeded? || e.Declined? || e.Failed? {
        later := OnAttempt(e, now);
      } else if e.Press? {
        Press(now);
      } else if e.Timeout? {
        OnTimeout(now);
      } else {
        OnLifecycle(e, now);
      }
    }

    /** What becomes of an attempt. */
    method OnAttempt(e: V.Event, now: int) returns (later: int)
      requires e.Prompt? || e.Succeeded? || e.Declined? || e.Failed?
      modifies this, key, bridge`response, bridge`answers
      ensures View(later) == V.Act(old(View(now)), e)
    {
      later := now;
      match e {
        case Prompt(serial, shown) => Prompt(serial, shown, now);
        case Succeeded(serial, authorized, took, verified) => later := Complete(serial, authorized, took, verified, now);
        case Declined(serial) => OnDeclined(serial, now);
        case Failed(serial) => OnFailed(serial, now);
      }
    }

    /** The activity comes, goes, and is prepared and polled. */
    method OnLifecycle(e: V.Event, now: int)
      requires polling.None? && (e.Create? || e.NewIntent? || e.Prepare? || e.PollRead? || e.Start? || e.Stop?)
      modifies this, key, bridge`response, bridge`answers
      ensures View(now) == V.Act(old(View(now)), e)
    {
      match e {
        case Create(id) => OnCreate(id);
        case NewIntent(id) => OnNewIntent(id, now);
        case Prepare(busy, keyed) => OnPrepared(busy, keyed, now);
        case PollRead => PollRead(now);
        case Start => OnStart(now);
        case Stop => OnStop(now);
      }
    }
  }
}
