/** What every sequence of deliveries keeps of the phone's mailbox. */
module MailboxProofs {
  import opened Protocol
  import opened MailboxSteps

  // ----- validated requests -----

  /** A request that passes runs exactly the command it displays, and its deadline on the
      phone is neither later than the signed expiry nor further off than 120 s. */
  lemma ValidatedIsBound(m: Mailbox, e: Envelope, allowExpired: bool)
    requires Validate(m, e, allowExpired).Valid?
    ensures var c := Validate(m, e, allowExpired).challenge;
            && c.envelope == e
            && c.deadline <= e.payload.expires && c.deadline <= m.now + WINDOW
            && (!allowExpired ==> c.deadline > m.now)
            && e.signer == e.payload.machine && e.payload.phoneKey == m.phoneKey
            && (e.payload.execution.Some? ==> e.payload.execution.value.argv == Argv(e.payload.command))
  {
  }

  /** What validation decides, apart from the time. */
  lemma ValidIsGenuine(m: Mailbox, e: Envelope)
    ensures Validate(m, e, true).Valid? <==> Genuine(m.pairings, m.phoneKey, e) && Timely(e.payload, m.now)
    ensures Validate(m, e, false).Valid? <==> Genuine(m.pairings, m.phoneKey, e) && Timely(e.payload, m.now) && m.now < e.payload.expires
  {
  }

  // ----- tombstones -----

  lemma {:induction false} SubsetSize(a: set<TombstoneId>, b: set<TombstoneId>)
    requires a <= b
    ensures |a| <= |b|
    decreases |a|
  {
    if a != {} {
      var x :| x in a;
      SubsetSize(a - {x}, b - {x});
    }
  }

  lemma PruneShrinks(tombstones: map<TombstoneId, Tombstone>, now: int)
    ensures |Prune(tombstones, now)| <= |tombstones|
  {
    SubsetSize(Prune(tombstones, now).Keys, tombstones.Keys);
  }

  lemma MailKeepsTombstonesFew(m: Mailbox, mail: Mail)
    requires |m.tombstones| <= TOMBSTONE_LIMIT
    ensures |Receive(m, mail).mailbox.tombstones| <= TOMBSTONE_LIMIT
  {
    PruneShrinks(m.tombstones, m.now);
  }

  lemma StepKeepsTombstonesFew(m: Mailbox, e: Event)
    requires |m.tombstones| <= TOMBSTONE_LIMIT
    ensures |Step(m, e).tombstones| <= TOMBSTONE_LIMIT
  {
    match e {
      case Shared(mail) => MailKeepsTombstonesFew(m, mail);
      case Lan(signer, machine, rpc) => LanLeavesResponses(m, signer, machine, rpc);
      case Answers(_) =>
      case Tick(_) =>
    }
  }

  lemma {:induction false} TombstonesStayFew(m: Mailbox, events: seq<Event>)
    requires |m.tombstones| <= TOMBSTONE_LIMIT
    ensures |Run(m, events).tombstones| <= TOMBSTONE_LIMIT
    decreases |events|
  {
    if events != [] {
      StepKeepsTombstonesFew(m, events[0]);
      TombstonesStayFew(Step(m, events[0]), events[1..]);
    }
  }

  /** The request is remembered as withdrawn, or too old to be accepted at all. */
  predicate Buried(m: Mailbox, p: Payload) {
    || m.now >= p.expires
    || (TombstoneFor(p) in m.tombstones && m.tombstones[TombstoneFor(p)] == Tombstone(p.expires + SKEW, p))
  }

  /** The machine does not withdraw a different request under the same id. */
  predicate Reuses(e: Event, p: Payload) {
    e.Shared? && e.mail.CancelMail? && TombstoneFor(e.mail.request.payload) == TombstoneFor(p) && e.mail.request.payload != p
  }

  lemma WithdrawalBuries(m: Mailbox, mail: Mail)
    requires mail.CancelMail? && Receive(m, mail).accepted
    ensures Buried(Receive(m, mail).mailbox, mail.request.payload)
  {
  }

  /** The one step that uncovers a request before its expiry: the machine withdraws another
      request under the same id, and that withdrawal is remembered. */
  predicate Uncovers(m: Mailbox, e: Event, p: Payload) {
    && m.now < p.expires
    && Reuses(e, p) && Receive(m, e.mail).accepted
    && e.mail.request.payload.expires + SKEW > m.now
  }

  lemma UncoveredExactlyByReuse(m: Mailbox, e: Event, p: Payload)
    requires Buried(m, p)
    ensures Buried(Step(m, e), p) <==> !Uncovers(m, e, p)
  {
    assert Prune(m.tombstones, m.now).Keys <= m.tombstones.Keys;
  }

  predicate NeverUncovers(m: Mailbox, events: seq<Event>, p: Payload)
    decreases |events|
  {
    events != [] ==> !Uncovers(m, events[0], p) && NeverUncovers(Step(m, events[0]), events[1..], p)
  }

  /** A buried request cannot take the slot through KDE Connect. */
  lemma BuriedStaysOut(m: Mailbox, p: Payload, mail: Mail)
    requires Buried(m, p) && mail.RequestMail? && mail.request.payload == p
    ensures Receive(m, mail).mailbox == m
  {
  }

  /** Once a verified withdrawal has been processed, no delivery of its request through KDE
      Connect changes the mailbox, however many other messages and however much time lie
      between, unless the machine has meanwhile withdrawn another request under the id. */
  lemma {:induction false} WithdrawnStaysOut(m: Mailbox, events: seq<Event>, p: Payload, mail: Mail)
    requires Buried(m, p) && NeverUncovers(m, events, p)
    requires mail.RequestMail? && mail.request.payload == p
    ensures Receive(Run(m, events), mail).mailbox == Run(m, events)
    decreases |events|
  {
    if events == [] {
      BuriedStaysOut(m, p, mail);
    } else {
      UncoveredExactlyByReuse(m, events[0], p);
      WithdrawnStaysOut(Step(m, events[0]), events[1..], p, mail);
    }
  }

  lemma OvertakingWithdrawal(m: Mailbox, cancel: Mail, events: seq<Event>, mail: Mail)
    requires cancel.CancelMail? && Receive(m, cancel).accepted
    requires NeverUncovers(Receive(m, cancel).mailbox, events, cancel.request.payload)
    requires mail.RequestMail? && mail.request.payload == cancel.request.payload
    ensures var n := Run(Receive(m, cancel).mailbox, events); Receive(n, mail).mailbox == n
  {
    WithdrawalBuries(m, cancel);
    WithdrawnStaysOut(Receive(m, cancel).mailbox, events, cancel.request.payload, mail);
  }

  // ----- the slot -----

  /** A valid request owns the slot and has not been withdrawn, declined or receipted. */
  predicate Owned(m: Mailbox) {
    && m.request.Some?
    && var v := Validate(m, m.request.value, false);
       v.Valid? && !Finished(m, v.challenge.envelope.payload).Yes?
  }

  lemma MailKeepsOwnedSlot(m: Mailbox, mail: Mail)
    requires Owned(m)
    ensures Receive(m, mail).mailbox.request == m.request && Receive(m, mail).mailbox.writes == m.writes
  {
  }

  lemma CallKeepsOwnedSlot(m: Mailbox, signer: nat, machine: nat, rpc: Rpc)
    requires Owned(m)
    ensures Handle(m, signer, machine, rpc).mailbox.request == m.request
    ensures Handle(m, signer, machine, rpc).mailbox.writes == m.writes
  {
  }

  /** Nothing that happens to the mailbox replaces the request that owns it. */
  lemma OwnedSlotIsKept(m: Mailbox, e: Event)
    requires Owned(m)
    ensures Step(m, e).request == m.request && Step(m, e).writes == m.writes
  {
    match e {
      case Shared(mail) => MailKeepsOwnedSlot(m, mail);
      case Lan(signer, machine, rpc) => CallKeepsOwnedSlot(m, signer, machine, rpc);
      case Answers(_) =>
      case Tick(_) =>
    }
  }

  lemma {:induction false} OwnedSlotIsKeptThroughout(m: Mailbox, events: seq<Event>)
    requires forall i :: 0 <= i < |events| ==> Owned(Run(m, events[..i]))
    ensures Run(m, events).request == m.request && Run(m, events).writes == m.writes
    decreases |events|
  {
    if events != [] {
      assert Owned(Run(m, events[..0]));
      OwnedSlotIsKept(m, events[0]);
      forall i | 0 <= i < |events[1..]|
        ensures Owned(Run(Step(m, events[0]), events[1..][..i]))
      {
        assert events[..i + 1][1..] == events[1..][..i];
        assert Owned(Run(m, events[..i + 1]));
      }
      OwnedSlotIsKeptThroughout(Step(m, events[0]), events[1..]);
    }
  }

  /** The slot changes exactly when a valid new request finds it free: empty, expired, or
      holding another request that has finished. */
  predicate Free(m: Mailbox, p: Payload) {
    || m.request.None?
    || (var v := Validate(m, m.request.value, false);
        || v.Expired?
        || (v.Valid? && v.challenge.envelope.payload.requestId != p.requestId && Finished(m, v.challenge.envelope.payload).Yes?))
  }

  /** The slot holds this very request, still valid. */
  predicate Holds(m: Mailbox, p: Payload) {
    m.request.Some? && Validate(m, m.request.value, false).Valid? && m.request.value.payload == p
  }

  lemma LanInstallsExactlyWhenFree(m: Mailbox, machine: nat, id: nat, e: Envelope)
    requires Validate(m, e, false).Valid? && id == e.payload.requestId && machine == e.payload.machine
    ensures var a := Exchange(m, machine, WriteRequest(id, e));
            if Free(m, e.payload) then a == Answer(m.(request := Some(e), writes := m.writes + 1), true, None)
            else a.mailbox == m && (a.accepted <==> Holds(m, e.payload))
  {
  }

  /** Over KDE Connect the same, except that a request with a live tombstone is dropped. */
  lemma KdeInstallsExactlyWhenFree(m: Mailbox, mail: Mail)
    requires mail.RequestMail? && Validate(m, mail.request, false).Valid?
    requires mail.id == mail.request.payload.requestId && mail.request.payload.kdeRoute
    ensures var p := mail.request.payload;
            var alive := Prune(m.tombstones, m.now);
            var d := Receive(m, mail);
            if TombstoneFor(p) in alive && alive[TombstoneFor(p)].hash == p then d == Delivery(m, true)
            else if Free(m, p) then d == Delivery(m.(request := Some(mail.request), writes := m.writes + 1, tombstones := alive), true)
            else d.mailbox == m && (d.accepted <==> Holds(m, p))
  {
  }

  /** Once a step has uncovered a request, its delivery is like any other: it takes the slot
      exactly when that is free. */
  lemma ReusedIdReopens(m: Mailbox, second: Event, mail: Mail)
    requires Buried(m, mail.request.payload) && Uncovers(m, second, mail.request.payload)
    requires mail.RequestMail? && Validate(m, mail.request, false).Valid?
    requires mail.id == mail.request.payload.requestId && mail.request.payload.kdeRoute
    ensures var n := Step(m, second);
            var d := Receive(n, mail);
            if Free(n, mail.request.payload) then d.accepted && d.mailbox.request == Some(mail.request) && d.mailbox.writes == n.writes + 1
            else d.mailbox == n
  {
    var n := Step(m, second);
    UncoveredExactlyByReuse(m, second, mail.request.payload);
    KdeInstallsExactlyWhenFree(n, mail);
  }

  /** Delivering the owner's request again, by either transport, changes nothing. */
  lemma RedeliveryChangesNothing(m: Mailbox, e: Envelope, mail: Mail, machine: nat, id: nat)
    requires m.request.Some? && Validate(m, m.request.value, false).Valid?
    requires e.payload == m.request.value.payload && mail.RequestMail? && mail.request == e
    ensures Receive(m, mail).mailbox == m
    ensures Exchange(m, machine, WriteRequest(id, e)).mailbox == m
  {
  }

  /** Over LAN a response is told only to the machine whose valid request owns the slot,
      and only the response to that request. */
  lemma OnlyTheOwnerReads(m: Mailbox, signer: nat, machine: nat, rpc: Rpc)
    requires Handle(m, signer, machine, rpc).value.Some?
    ensures m.request.Some? && Validate(m, m.request.value, false).Valid?
    ensures var p := m.request.value.payload;
            && machine == p.machine && rpc.id == p.requestId && machine in m.pairings && signer == m.pairings[machine].machineKey
            && Handle(m, signer, machine, rpc).value.value.requestId == p.requestId
            && Handle(m, signer, machine, rpc).value == m.response
            && Handle(m, signer, machine, rpc).mailbox == m
  {
  }

  /** No transport writes or removes a response, and each refusal leaves all as it was. */
  lemma KdeLeavesResponses(m: Mailbox, mail: Mail)
    ensures Receive(m, mail).mailbox.response == m.response
    ensures !Receive(m, mail).accepted ==> Receive(m, mail).mailbox == m
  {
  }

  lemma LanLeavesResponses(m: Mailbox, signer: nat, machine: nat, rpc: Rpc)
    ensures Handle(m, signer, machine, rpc).mailbox.response == m.response
    ensures Handle(m, signer, machine, rpc).mailbox.tombstones == m.tombstones
    ensures !Handle(m, signer, machine, rpc).accepted ==> Handle(m, signer, machine, rpc).mailbox == m
  {
  }
}
