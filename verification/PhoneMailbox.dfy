/** `Bridge`, `KdeConnectInbox` and `NetworkService` themselves: files rewritten in place
    under one lock, proved to move the mailbox as `MailboxSteps` says. */
module PhoneMailbox {
  import opened Protocol
  import opened TextChecks
  import opened M = MailboxSteps
  import P = MailboxProofs

  /** The private files; each `None` is a file that does not exist. */
  class Bridge {
    const phoneKey: nat
    var pairings: map<nat, Pairing>
    var request: Option<Envelope>
    var writes: nat
    var response: Option<Response>
    var cancel: Option<Withdrawal>
    var receipt: Option<Receipt>
    var tombstones: map<TombstoneId, Tombstone>
    /** Every response that was ever written, in order. */
    ghost var answers: seq<Response>

    ghost function View(now: int): Mailbox
      reads this
    {
      Mailbox(phoneKey, pairings, now, request, writes, response, cancel, receipt, tombstones)
    }

    constructor (phoneKey: nat, pairings: map<nat, Pairing>)
      ensures forall now :: View(now) == Mailbox(phoneKey, pairings, now, None, 0, None, None, None, map[])
      ensures answers == []
    {
      this.phoneKey, this.pairings := phoneKey, pairings;
      request, writes, response, cancel, receipt, tombstones := None, 0, None, None, None, map[];
      answers := [];
    }

    method Validate(e: Envelope, now: int, allowExpired: bool) returns (v: Validation)
      ensures v == M.Validate(View(now), e, allowExpired)
    {
      if e.machineKey !in pairings || !e.admissible || e.signer != e.machineKey {
        return Invalid;
      }
      v := ParseChallenge(e, now, allowExpired);
      if !v.Valid? {
        return;
      }
      if !e.payload.authenticate || e.phoneKey != phoneKey || e.payload.phoneKey != phoneKey || e.payload.machine != e.machineKey {
        return Invalid;
      }
      var pinned := pairings[e.machineKey];
      if pinned.machineKey != e.machineKey || pinned.phoneCertificate != e.phoneCertificate {
        return Invalid;
      }
    }

    /** The constructor of `Challenge`. */
    method ParseChallenge(e: Envelope, now: int, allowExpired: bool) returns (v: Validation)
      ensures v == if !Shown(e.payload) || !Timely(e.payload, now) then Invalid
                   else if e.payload.expires <= now && !allowExpired then Expired
                   else Valid(Challenge(e, now + Min(e.payload.expires - now, WINDOW)))
    {
      var application := ValidateText(Utf16(e.payload.application), 80, false);
      var command := ValidateText(Utf16(e.payload.command), 512, true);
      if !application || !command {
        return Invalid;
      }
      if e.payload.execution.Some? {
        var x := e.payload.execution.value;
        if x.argv != Argv(e.payload.command) || x.uid != 0 || x.gid != 0 {
          return Invalid;
        }
      }
      var issued, expires := e.payload.issued, e.payload.expires;
      if issued > now + SKEW || expires <= issued || expires - issued > WINDOW {
        return Invalid;
      }
      if expires <= now && !allowExpired {
        return Expired;
      }
      v := Valid(Challenge(e, now + Min(expires - now, WINDOW)));
    }

    /** Who has the slot, as both transports ask before they overwrite it. */
    method Claims(p: Payload, now: int) returns (claim: Claim)
      ensures claim == M.Claims(View(now), p)
    {
      if request.None? {
        return Take;
      }
      var previous := Validate(request.value, now, false);
      if previous.Expired? {
        return Take;
      }
      if previous.Invalid? {
        return Refuse;
      }
      var q := previous.challenge.envelope.payload;
      if q.requestId == p.requestId {
        return if q == p then Keep else Refuse;
      }
      var finished := M.Canceled(q, cancel);
      if finished.No? && response.Some? && response.value.requestId == q.requestId {
        finished := if response.value.DeclinedResponse? then Yes else M.Receipted(q, response.value, receipt);
      }
      claim := if finished.Yes? then Take else Refuse;
    }

    method WriteRequest(e: Envelope)
      modifies this`request, this`writes
      ensures request == Some(e) && writes == old(writes) + 1
    {
      request := Some(e);
      writes := writes + 1;
    }

    method Signed(p: Payload, signature: nat)
      modifies this`response, this`answers
      ensures response == Some(SignedResponse(p.requestId, p, signature)) && answers == old(answers) + [response.value]
    {
      response := Some(SignedResponse(p.requestId, p, signature));
      answers := answers + [response.value];
    }

    method Declined(p: Payload)
      modifies this`response, this`answers
      ensures response == Some(DeclinedResponse(p.requestId)) && answers == old(answers) + [response.value]
    {
      response := Some(DeclinedResponse(p.requestId));
      answers := answers + [response.value];
    }
  }

  class KdeConnectInbox {
    const bridge: Bridge

    constructor (bridge: Bridge)
      ensures this.bridge == bridge
    {
      this.bridge := bridge;
    }

    /** The tombstones still needed: the first loop collects, the second removes. */
    method Prune(tombstones: map<TombstoneId, Tombstone>, now: int) returns (kept: map<TombstoneId, Tombstone>)
      ensures kept == M.Prune(tombstones, now)
    {
      var expired: seq<TombstoneId> := [];
      var ids := tombstones.Keys;
      while ids != {}
        invariant ids <= tombstones.Keys
        invariant forall id :: id in expired <==> id in tombstones && id !in ids && tombstones[id].until < now
        decreases |ids|
      {
        var previous :| previous in ids;
        ids := ids - {previous};
        if tombstones[previous].until < now {
          expired := expired + [previous];
        }
      }
      kept := tombstones;
      for i := 0 to |expired|
        invariant kept == map id | id in tombstones && id !in expired[..i] :: tombstones[id]
      {
        assert expired[..i + 1] == expired[..i] + [expired[i]];
        kept := kept - {expired[i]};
      }
      assert expired[..|expired|] == expired;
    }

    /** A delivery keeps the cap on tombstones, leaves an owned request in the slot, never
        touches the response, and changes nothing when it is refused. */
    method Receive(mail: Mail, now: int) returns (accepted: bool)
      modifies bridge
      ensures Delivery(bridge.View(now), accepted) == M.Receive(old(bridge.View(now)), mail)
      ensures |old(bridge.tombstones)| <= TOMBSTONE_LIMIT ==> |bridge.tombstones| <= TOMBSTONE_LIMIT
      ensures old(P.Owned(bridge.View(now))) ==> bridge.request == old(bridge.request)
      ensures bridge.response == old(bridge.response)
      ensures !accepted ==> bridge.View(now) == old(bridge.View(now))
      ensures mail.CancelMail? && accepted ==> P.Buried(bridge.View(now), mail.request.payload)
    {
      ghost var before := bridge.View(now);
      accepted := Deliver(mail, now);
      P.KdeLeavesResponses(before, mail);
      if |before.tombstones| <= TOMBSTONE_LIMIT {
        P.StepKeepsTombstonesFew(before, Shared(mail));
      }
      if P.Owned(before) {
        P.OwnedSlotIsKept(before, Shared(mail));
      }
      if mail.CancelMail? && accepted {
        P.WithdrawalBuries(before, mail);
      }
    }

    method Deliver(mail: Mail, now: int) returns (accepted: bool)
      modifies bridge
      ensures Delivery(bridge.View(now), accepted) == M.Receive(old(bridge.View(now)), mail)
    {
      accepted := false;
      var v := bridge.Validate(mail.request, now, !mail.RequestMail?);
      if !v.Valid? {
        return;
      }
      var p := v.challenge.envelope.payload;
      if mail.id != p.requestId || !p.kdeRoute {
        return;
      }
      var alive := Prune(bridge.tombstones, now);
      match mail {
        case RequestMail(_, e) => accepted := ReceiveRequest(p, e, alive, now);
        case CancelMail(_, _, w) => accepted := ReceiveCancel(p, w, alive, now);
        case ReceiptMail(_, _, r) => accepted := ReceiveReceipt(p, r);
      }
    }

    method ReceiveRequest(p: Payload, e: Envelope, alive: map<TombstoneId, Tombstone>, now: int) returns (accepted: bool)
      requires alive == M.Prune(bridge.tombstones, now)
      modifies bridge
      ensures Delivery(bridge.View(now), accepted) == M.ReceiveRequest(old(bridge.View(now)), p, e)
    {
      if TombstoneFor(p) in alive && alive[TombstoneFor(p)].hash == p {
        return true;
      }
      var claim := bridge.Claims(p, now);
      if claim.Take? {
        bridge.WriteRequest(e);
        bridge.tombstones := alive;
      }
      accepted := !claim.Refuse?;
    }

    method ReceiveCancel(p: Payload, w: Withdrawal, alive: map<TombstoneId, Tombstone>, now: int) returns (accepted: bool)
      requires alive == M.Prune(bridge.tombstones, now)
      modifies bridge
      ensures Delivery(bridge.View(now), accepted) == M.ReceiveCancel(old(bridge.View(now)), p, w)
    {
      if !M.Canceled(p, Some(w)).Yes? {
        return false;
      }
      var tombstones := alive;
      var until := p.expires + SKEW;
      if until > now {
        if |tombstones| >= TOMBSTONE_LIMIT && TombstoneFor(p) !in tombstones {
          return false;
        }
        tombstones := tombstones[TombstoneFor(p) := Tombstone(until, p)];
      }
      bridge.tombstones := tombstones;
      if bridge.request.Some? && bridge.request.value.payload == p {
        bridge.cancel := Some(w);
      }
      return true;
    }

    method ReceiveReceipt(p: Payload, r: Receipt) returns (accepted: bool)
      modifies bridge
      ensures forall now :: Delivery(bridge.View(now), accepted) == M.ReceiveReceipt(old(bridge.View(now)), p, r)
    {
      var current, response := bridge.request, bridge.response;
      accepted := current.Some? && current.value.payload == p && response.Some? && response.value.requestId == p.requestId
                  && M.Receipted(p, response.value, Some(r)).Yes?;
      if accepted {
        bridge.receipt := Some(r);
      }
    }
  }

  class NetworkService {
    const bridge: Bridge

    constructor (bridge: Bridge)
      ensures this.bridge == bridge
    {
      this.bridge := bridge;
    }

    /** A call leaves an owned request in the slot, never touches the response or a tombstone,
        tells a response only to the owner of the slot, and changes nothing when refused. */
    method Handle(signer: nat, machine: nat, rpc: Rpc, now: int) returns (accepted: bool, value: Option<Response>)
      modifies bridge
      ensures Answer(bridge.View(now), accepted, value) == M.Handle(old(bridge.View(now)), signer, machine, rpc)
      ensures old(P.Owned(bridge.View(now))) ==> bridge.request == old(bridge.request)
      ensures bridge.response == old(bridge.response) && bridge.tombstones == old(bridge.tombstones)
      ensures !accepted ==> bridge.View(now) == old(bridge.View(now))
      ensures value.Some? ==>
                && bridge.request.Some? && bridge.request.value.payload.machine == machine
                && bridge.request.value.payload.requestId == rpc.id == value.value.requestId
    {
      ghost var before := bridge.View(now);
      accepted, value := Serve(signer, machine, rpc, now);
      P.LanLeavesResponses(before, signer, machine, rpc);
      if P.Owned(before) {
        P.OwnedSlotIsKept(before, Lan(signer, machine, rpc));
      }
      if value.Some? {
        P.OnlyTheOwnerReads(before, signer, machine, rpc);
      }
    }

    method Serve(signer: nat, machine: nat, rpc: Rpc, now: int) returns (accepted: bool, value: Option<Response>)
      modifies bridge
      ensures Answer(bridge.View(now), accepted, value) == M.Handle(old(bridge.View(now)), signer, machine, rpc)
    {
      accepted, value := false, None;
      if machine in bridge.pairings && signer == bridge.pairings[machine].machineKey {
        accepted, value := Exchange(machine, rpc, now);
      }
    }

    method Exchange(machine: nat, rpc: Rpc, now: int) returns (accepted: bool, value: Option<Response>)
      modifies bridge
      ensures Answer(bridge.View(now), accepted, value) == M.Exchange(old(bridge.View(now)), machine, rpc)
    {
      accepted, value := false, None;
      if rpc.WriteRequest? {
        accepted := WriteRequest(machine, rpc.id, rpc.request, now);
        return;
      }
      if bridge.request.None? {
        return;
      }
      var terminal := rpc.WriteReceipt? || rpc.WriteCancel?;
      var v := bridge.Validate(bridge.request.value, now, terminal);
      if !v.Valid? {
        return;
      }
      var p := v.challenge.envelope.payload;
      if rpc.id != p.requestId || machine != p.machine {
        return;
      }
      var response := bridge.response;
      var mine := response.Some? && response.value.requestId == rpc.id;
      match rpc {
        case ReadResponse(_) =>
          accepted := true;
          value := if mine then response else None;
        case WriteCancel(_, w) =>
          accepted := M.Canceled(p, Some(w)).Yes?;
          if accepted { bridge.cancel := Some(w); }
        case WriteReceipt(_, r) =>
          accepted := mine && M.Receipted(p, response.value, Some(r)).Yes?;
          if accepted { bridge.receipt := Some(r); }
      }
    }

    method WriteRequest(machine: nat, id: nat, e: Envelope, now: int) returns (accepted: bool)
      modifies bridge
      ensures Answer(bridge.View(now), accepted, None) == M.WriteLan(old(bridge.View(now)), machine, id, e)
    {
      var v := bridge.Validate(e, now, false);
      if !v.Valid? {
        return false;
      }
      var p := v.challenge.envelope.payload;
      if id != p.requestId || machine != p.machine {
        return false;
      }
      var claim := bridge.Claims(p, now);
      if claim.Take? {
        bridge.WriteRequest(e);
      }
      accepted := !claim.Refuse?;
    }
  }
}
