/** The two ends agree: what the authority writes is what the phone takes, and the other way
    round, for every helper in every run. */
module Agreement {
  import opened Protocol
  import opened TextChecks
  import A = AuthoritySteps
  import R = AuthorityRuns
  import T = AuthorityTheorems
  import U = AuthorityDuties
  import M = MailboxSteps
  import N = MailboxDuties

  /** The paired phone's mailbox. */
  predicate Paired(w: A.World, m: M.Mailbox, certificate: nat) {
    w.machine in m.pairings && m.pairings[w.machine] == M.Pairing(w.machine, certificate) && m.phoneKey == w.phoneKey
  }

  /** `crypto.envelope` of a request, with the two certificates. */
  function Enveloped(p: Payload, certificate: nat, signature: nat): M.Envelope {
    M.Envelope(p.machine, p.phoneKey, certificate, p.machine, signature, true, p)
  }

  /** The terminal messages, each with the machine's signature. */
  function Cancellation(p: Payload): M.Withdrawal {
    M.Withdrawal(p.machine, p.requestId, p.machine, p.phoneKey, p)
  }

  function Confirmation(p: Payload, signature: nat, pid: nat): M.Receipt {
    M.Receipt(p.machine, p.requestId, p.machine, p.phoneKey, true, signature, pid)
  }

  /** The clocks are half a minute apart at most and the request is not over. */
  predicate Timely(p: Payload, now: int) {
    p.issued <= now + 30000 && p.issued < p.expires && now < p.expires
  }

  /** The texts fit in the phone's UTF-16 limits. */
  predicate Fits(p: Payload) {
    |Utf16(p.application)| <= 80 && |Utf16(p.command)| <= 512
  }

  /** What discovery makes of an accepted start is a request of this machine for this phone,
      of at most two minutes. */
  predicate Own(w: A.World, p: Payload) {
    && p.machine == w.machine && p.phoneKey == w.phoneKey && p.authenticate && p.kdeRoute == w.kdeRoute
    && p.expires - p.issued <= 120000
    && Plain(p.application, 80, false) && Plain(p.command, 512, false)
    && p.execution.Some? && p.execution.value.argv == Argv(p.command) && p.execution.value.uid == 0 && p.execution.value.gid == 0
  }

  lemma PlainMayBeEmpty(s: Text, limit: nat)
    requires Plain(s, limit, false)
    ensures Plain(s, limit, true)
  {
  }

  /** The phone accepts the authority's request exactly if it arrives in time and its texts fit
      in UTF-16. */
  lemma RequestIsAccepted(w: A.World, m: M.Mailbox, certificate: nat, p: Payload, signature: nat)
    requires Own(w, p) && Paired(w, m, certificate)
    ensures M.Validate(m, Enveloped(p, certificate, signature), false).Valid? <==> Timely(p, m.now) && Fits(p)
  {
    N.ValidExactly(m, Enveloped(p, certificate, signature));
    PlainMayBeEmpty(p.command, 512);
    PhoneAcceptsExactlyWithinUtf16Limit(p.application, 80, false);
    PhoneAcceptsExactlyWithinUtf16Limit(p.command, 512, true);
  }

  lemma RequestIsOwn(k: nat, h: A.Helper, w: A.World, e: A.Event)
    requires R.Sound(h) && R.Checked(h, w.account) && h.startedAt <= w.now
    requires h.payload.Some? ==> Own(w, h.payload.value)
    ensures var g := A.Step(k, h, w, e).helper;
            g.payload.Some? ==> Own(w, g.payload.value)
  {
    U.StepSteers(k, h, w, e);
  }

  predicate AllOwn(s: R.System) {
    && U.Begun(s)
    && forall k :: 0 <= k < |s.helpers| && s.helpers[k].payload.Some? ==> Own(s.world, s.helpers[k].payload.value)
  }

  lemma StepKeepsOwn(s: R.System, e: R.SystemEvent)
    requires T.Inv(s) && AllOwn(s)
    ensures AllOwn(R.Step(s, e))
  {
    U.StepBegins(s, e);
    PartiesStay(s, e);
    forall k | 0 <= k < |R.Step(s, e).helpers| && R.Step(s, e).helpers[k].payload.Some?
      ensures Own(R.Step(s, e).world, R.Step(s, e).helpers[k].payload.value)
    {
      if k < |s.helpers| {
        U.StepMoves(s, e, k);
        if e.HelperEvent? && e.k == k && !e.event.Boot? {
          assert T.Good(k, s.helpers[k], s.world);
          RequestIsOwn(k, s.helpers[k], s.world, e.event);
        }
      } else {
        U.StepForks(s, e, k);
      }
    }
  }

  /** The machine, the phone's key and the route of a run do not change. */
  lemma PartiesStay(s: R.System, e: R.SystemEvent)
    requires T.Inv(s)
    ensures var v, w := s.world, R.Step(s, e).world;
            w.machine == v.machine && w.phoneKey == v.phoneKey && w.kdeRoute == v.kdeRoute
  {
    if e.HelperEvent? && e.k < |s.helpers| && !e.event.Boot? {
      assert T.Good(e.k, s.helpers[e.k], s.world);
      U.StepBooks(e.k, s.helpers[e.k], s.world, e.event);
    }
  }

  /** Over every run each helper's request is such a request. */
  lemma {:induction false} EveryRequestIsOwn(s: R.System, events: seq<R.SystemEvent>)
    requires T.Inv(s) && AllOwn(s)
    ensures AllOwn(R.Run(s, events))
    decreases |events|
  {
    if events != [] {
      StepKeepsOwn(s, events[0]);
      T.StepKeepsInv(s, events[0]);
      EveryRequestIsOwn(R.Step(s, events[0]), events[1..]);
    }
  }

  /** Its withdrawal, and the receipt for a signature of it, match it at the phone. */
  lemma TerminalMessagesMatch(p: Payload, signature: nat, pid: nat)
    ensures M.Canceled(p, Some(Cancellation(p))).Yes?
    ensures pid > 0 ==> M.Receipted(p, M.SignedResponse(p.requestId, p, signature), Some(Confirmation(p, signature, pid))).Yes?
  {
  }

  /** Over either transport the withdrawal of the request in the slot becomes the cancel file, as
      long as KDE Connect finds room for its tombstone. */
  lemma WithdrawalArrives(w: A.World, m: M.Mailbox, certificate: nat, p: Payload, signature: nat)
    requires Own(w, p) && Paired(w, m, certificate) && m.request == Some(Enveloped(p, certificate, signature))
    requires p.issued <= m.now + 30000 && p.issued < p.expires && Fits(p)
    ensures M.Handle(m, w.machine, w.machine, M.WriteCancel(p.requestId, Cancellation(p))).mailbox == m.(cancel := Some(Cancellation(p)))
    ensures p.kdeRoute && N.Room(m, p) ==>
              M.Receive(m, M.CancelMail(p.requestId, Enveloped(p, certificate, signature), Cancellation(p))).mailbox.cancel == Some(Cancellation(p))
  {
    PlainMayBeEmpty(p.command, 512);
    PhoneAcceptsExactlyWithinUtf16Limit(p.application, 80, false);
    PhoneAcceptsExactlyWithinUtf16Limit(p.command, 512, true);
    N.OwnerWithdrawsExactly(m, w.machine, w.machine, p.requestId, Cancellation(p));
    N.WithdrawalIsTakenExactly(m, M.CancelMail(p.requestId, Enveloped(p, certificate, signature), Cancellation(p)));
  }

  /** The signed response reaches the authority over LAN while the request is not over, and its
      receipt then finishes the request. */
  lemma ApprovalComesBack(w: A.World, m: M.Mailbox, certificate: nat, p: Payload, signature: nat, use: nat, pid: nat)
    requires Own(w, p) && Paired(w, m, certificate) && m.request == Some(Enveloped(p, certificate, signature))
    requires Timely(p, m.now) && Fits(p) && pid > 0
    requires m.response == Some(M.SignedResponse(p.requestId, p, use))
    ensures M.Handle(m, w.machine, w.machine, M.ReadResponse(p.requestId)).value == m.response
    ensures var n := M.Handle(m, w.machine, w.machine, M.WriteReceipt(p.requestId, Confirmation(p, use, pid))).mailbox;
            n == m.(receipt := Some(Confirmation(p, use, pid)))
    ensures p.kdeRoute ==>
              M.Receive(m, M.ReceiptMail(p.requestId, Enveloped(p, certificate, signature), Confirmation(p, use, pid))).mailbox
              == m.(receipt := Some(Confirmation(p, use, pid)))
  {
    PlainMayBeEmpty(p.command, 512);
    PhoneAcceptsExactlyWithinUtf16Limit(p.application, 80, false);
    PhoneAcceptsExactlyWithinUtf16Limit(p.command, 512, true);
    N.OwnerReadsExactly(m, w.machine, w.machine, p.requestId);
    N.OwnerConfirmsExactly(m, w.machine, w.machine, p.requestId, Confirmation(p, use, pid));
    N.ReceiptIsTakenExactly(m, M.ReceiptMail(p.requestId, Enveloped(p, certificate, signature), Confirmation(p, use, pid)));
  }

  /** The response the phone publishes is an answer the authority takes: the helper that made
      the request becomes ready. */
  lemma ApprovalIsTaken(k: nat, h: A.Helper, w: A.World, use: nat, output: A.Output)
    requires R.Sound(h) && h.phase.Approving? && h.watch.Watching? && h.payload.Some?
    requires use < |w.trace| && w.trace[use] == A.Signed(h.payload.value) && w.now < h.startedAt + 120000
    ensures A.Step(k, h, w, A.Approved(A.Answer(h.payload.value, true, use), output)).helper.phase.Announcing?
  {
    U.StepSteers(k, h, w, A.Approved(A.Answer(h.payload.value, true, use), output));
  }
}
