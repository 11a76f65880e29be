/** What the mailbox owes to a machine whose request it holds: the answer, and that its
    withdrawal and receipt are taken; each file's contents read off its fields. */
module MailboxDuties {
  import opened Protocol
  import opened TextChecks
  import opened MailboxSteps
  import P = MailboxProofs

  // ----- what counts as what -----

  /** A request that the phone may show, from a machine it is paired with. */
  predicate Trusted(m: Mailbox, e: Envelope) {
    var p := e.payload;
    && e.machineKey in m.pairings
    && m.pairings[e.machineKey].machineKey == e.machineKey && m.pairings[e.machineKey].phoneCertificate == e.phoneCertificate
    && e.signer == e.machineKey && e.admissible
    && p.machine == e.machineKey && p.phoneKey == m.phoneKey && e.phoneKey == m.phoneKey
    && p.authenticate
  }

  /** Its texts are displayable, and as root it runs the command it shows. */
  predicate Presentable(p: Payload) {
    && Displayable(Utf16(p.application), 80, false) && Displayable(Utf16(p.command), 512, true)
    && (p.execution.Some? ==> p.execution.value.argv == [SHELL, DASH_C, p.command] && p.execution.value.uid == 0 && p.execution.value.gid == 0)
  }

  /** Its window is of at most two minutes and does not begin more than half a minute ahead. */
  predicate Scheduled(p: Payload, now: int) {
    0 < p.expires - p.issued <= 120000 && p.issued <= now + 30000
  }

  lemma ValidExactly(m: Mailbox, e: Envelope)
    ensures Validate(m, e, true).Valid? <==> Trusted(m, e) && Presentable(e.payload) && Scheduled(e.payload, m.now)
    ensures Validate(m, e, false).Valid? <==> Trusted(m, e) && Presentable(e.payload) && Scheduled(e.payload, m.now) && m.now < e.payload.expires
  {
  }

  /** Its deadline on the phone's clock: what is left of the window, at most two minutes. */
  lemma DeadlineExactly(m: Mailbox, e: Envelope)
    requires Validate(m, e, false).Valid?
    ensures var d := Validate(m, e, false).challenge.deadline;
            d == if e.payload.expires <= m.now + 120000 then e.payload.expires else m.now + 120000
  {
  }

  predicate WithdrawnBy(p: Payload, w: Withdrawal) {
    w == Withdrawal(p.machine, p.requestId, p.machine, p.phoneKey, p)
  }

  predicate ConfirmedBy(p: Payload, response: Response, r: Receipt) {
    && r.requestId == p.requestId && r.signer == p.machine && r.machine == p.machine && r.phoneKey == p.phoneKey && r.approved
    && response.SignedResponse? && r.signature == response.signature && (p.execution.Some? ==> r.pid > 0)
  }

  lemma CanceledExactly(p: Payload, w: Option<Withdrawal>)
    ensures Canceled(p, w).Yes? <==> w.Some? && WithdrawnBy(p, w.value)
    ensures Canceled(p, w).Throws? <==> w.Some? && w.value.requestId == p.requestId && !WithdrawnBy(p, w.value)
  {
  }

  lemma ReceiptedExactly(p: Payload, response: Response, r: Option<Receipt>)
    ensures Receipted(p, response, r).Yes? <==> r.Some? && ConfirmedBy(p, response, r.value)
    ensures Receipted(p, response, r).Throws? <==> r.Some? && r.value.requestId == p.requestId && !ConfirmedBy(p, response, r.value)
  {
  }

  /** A request is finished by its withdrawal, by the owner's decline, or by the receipt for
      the signature. */
  lemma FinishedExactly(m: Mailbox, p: Payload)
    requires m.cancel.Some? && m.cancel.value.requestId == p.requestId ==> WithdrawnBy(p, m.cancel.value)
    ensures Finished(m, p).Yes? <==>
      || (m.cancel.Some? && WithdrawnBy(p, m.cancel.value))
      || (m.response.Some? && m.response.value.requestId == p.requestId &&
            (m.response.value.DeclinedResponse? || (m.receipt.Some? && ConfirmedBy(p, m.response.value, m.receipt.value))))
  {
  }

  // ----- LAN -----

  /** The paired machine calls, with its key, about its own request, which is in the slot. */
  predicate Owner(m: Mailbox, signer: nat, machine: nat, id: nat) {
    && m.request.Some? && Trusted(m, m.request.value)
    && machine == m.request.value.payload.machine && signer == machine && id == m.request.value.payload.requestId
    && Presentable(m.request.value.payload) && Scheduled(m.request.value.payload, m.now)
  }

  predicate Current(m: Mailbox) {
    m.request.Some? && m.now < m.request.value.payload.expires
  }

  /** The owner of the slot gets the response to its request as soon as there is one, whether
      signed or declined, and nobody gets anything else. */
  lemma OwnerReadsExactly(m: Mailbox, signer: nat, machine: nat, id: nat)
    ensures var a := Handle(m, signer, machine, ReadResponse(id));
            && a.mailbox == m
            && (a.accepted <==> Owner(m, signer, machine, id) && Current(m))
            && a.value == (if a.accepted && m.response.Some? && m.response.value.requestId == id then m.response else None)
  {
    if m.request.Some? {
      ValidExactly(m, m.request.value);
    }
  }

  /** Its withdrawal is taken exactly if it matches, also after the expiry, and is the file then. */
  lemma OwnerWithdrawsExactly(m: Mailbox, signer: nat, machine: nat, id: nat, w: Withdrawal)
    ensures var a := Handle(m, signer, machine, WriteCancel(id, w));
            && (a.accepted <==> Owner(m, signer, machine, id) && WithdrawnBy(m.request.value.payload, w))
            && a.mailbox == (if a.accepted then m.(cancel := Some(w)) else m) && a.value.None?
  {
    if m.request.Some? {
      ValidExactly(m, m.request.value);
    }
  }

  /** So is its receipt, for the response that is there. */
  lemma OwnerConfirmsExactly(m: Mailbox, signer: nat, machine: nat, id: nat, r: Receipt)
    ensures var a := Handle(m, signer, machine, WriteReceipt(id, r));
            && (a.accepted <==>
                  Owner(m, signer, machine, id) && m.response.Some? && m.response.value.requestId == id
                  && ConfirmedBy(m.request.value.payload, m.response.value, r))
            && a.mailbox == (if a.accepted then m.(receipt := Some(r)) else m) && a.value.None?
  {
    if m.request.Some? {
      ValidExactly(m, m.request.value);
    }
  }

  /** Its new request is taken, or recognised, or refused. */
  lemma OwnerAsksExactly(m: Mailbox, signer: nat, machine: nat, id: nat, e: Envelope)
    ensures var a := Handle(m, signer, machine, WriteRequest(id, e));
            var asked := Trusted(m, e) && Presentable(e.payload) && Scheduled(e.payload, m.now) && m.now < e.payload.expires
                         && machine == e.payload.machine && signer == machine && id == e.payload.requestId;
            && (a.accepted <==> asked && (P.Free(m, e.payload) || P.Holds(m, e.payload)))
            && a.mailbox == (if a.accepted && P.Free(m, e.payload) then m.(request := Some(e), writes := m.writes + 1) else m) && a.value.None?
  {
    ValidExactly(m, e);
  }

  // ----- KDE Connect -----

  predicate Mailed(m: Mailbox, mail: Mail) {
    && Trusted(m, mail.request) && Presentable(mail.request.payload) && Scheduled(mail.request.payload, m.now)
    && mail.id == mail.request.payload.requestId && mail.request.payload.kdeRoute
  }

  /** The tombstones that are still needed, and whether there is room for one more. */
  function Alive(m: Mailbox): map<TombstoneId, Tombstone> {
    map id | id in m.tombstones && m.now <= m.tombstones[id].until :: m.tombstones[id]
  }

  predicate Room(m: Mailbox, p: Payload) {
    p.expires + 30000 <= m.now || |Alive(m)| < 64 || TombstoneId(p.machine, p.requestId) in Alive(m)
  }

  lemma PruneExactly(m: Mailbox)
    ensures Prune(m.tombstones, m.now) == Alive(m)
  {
  }

  /** A withdrawal is taken exactly if it matches its own copy of the request and can be
      remembered; it is remembered until half a minute after the expiry, and it is the cancel
      file if its request is in the slot. */
  lemma WithdrawalIsTakenExactly(m: Mailbox, mail: Mail)
    requires mail.CancelMail?
    ensures var d, p := Receive(m, mail), mail.request.payload;
            && (d.accepted <==> Mailed(m, mail) && WithdrawnBy(p, mail.withdrawal) && Room(m, p))
            && d.mailbox == if !d.accepted then m
               else m.(cancel := if m.request.Some? && m.request.value.payload == p then Some(mail.withdrawal) else m.cancel,
                       tombstones := if p.expires + 30000 > m.now
                                     then Alive(m)[TombstoneId(p.machine, p.requestId) := Tombstone(p.expires + 30000, p)] else Alive(m))
  {
    ValidExactly(m, mail.request);
    PruneExactly(m);
  }

  /** A receipt is taken exactly if its request is in the slot and it confirms the response. */
  lemma ReceiptIsTakenExactly(m: Mailbox, mail: Mail)
    requires mail.ReceiptMail?
    ensures var d, p := Receive(m, mail), mail.request.payload;
            && (d.accepted <==>
                  Mailed(m, mail) && m.request.Some? && m.request.value.payload == p
                  && m.response.Some? && m.response.value.requestId == p.requestId && ConfirmedBy(p, m.response.value, mail.receipt))
            && d.mailbox == (if d.accepted then m.(receipt := Some(mail.receipt)) else m)
  {
    ValidExactly(m, mail.request);
  }

  /** A request is taken exactly if it is in time and free to take the slot or there already,
      or dropped as withdrawn. */
  lemma RequestIsTakenExactly(m: Mailbox, mail: Mail)
    requires mail.RequestMail?
    ensures var d, p := Receive(m, mail), mail.request.payload;
            var id := TombstoneId(p.machine, p.requestId);
            var buried := id in Alive(m) && Alive(m)[id].hash == p;
            && (d.accepted <==> Mailed(m, mail) && m.now < p.expires && (buried || P.Free(m, p) || P.Holds(m, p)))
            && d.mailbox == if d.accepted && !buried && P.Free(m, p)
               then m.(request := Some(mail.request), writes := m.writes + 1, tombstones := Alive(m)) else m
  {
    ValidExactly(m, mail.request);
    PruneExactly(m);
  }
}
