/** `approve` in host.py: one challenge, polled for, and the key approval that belongs to
    its consumption. `session.lock` keeps every other invocation out. */
module HostApproval {
  datatype RowStatus = Pending | Consumed | Canceled

  datatype Mail = RequestMail | ReceiptMail | CancelMail

  /** One look at the mailbox: nothing yet, a refusal, an approval that passes or fails the
      checks, or an exception; `late` is what the clock says afterwards. */
  datatype Look = Nothing | Refused | Signed(genuine: bool) | Raises

  datatype Poll = Poll(look: Look, inTime: bool, late: bool)

  datatype Result = Approved | NotApproved

  /** The two tables of `approvals.sqlite3`. */
  datatype Store = Store(rows: map<nat, RowStatus>, approved: set<nat>)

  /** `UPDATE requests SET status='canceled' WHERE status='pending'`, at every start. */
  function Sweep(s: Store): Store {
    s.(rows := map id | id in s.rows :: if s.rows[id].Pending? then Canceled else s.rows[id])
  }

  /** The first poll that decides, as long as the deadline has not passed. */
  function Decides(polls: seq<Poll>): bool {
    if polls == [] || !polls[0].inTime then false
    else
      match polls[0].look
      case Nothing => Decides(polls[1..])
      case Refused => false
      case Raises => false
      case Signed(genuine) => genuine && !polls[0].late
  }

  /** The poll `k` brings the approval: everything before it found nothing, in time; it finds a
      signed response that passes every check, and there is still time when that is done. */
  predicate ApprovedAt(polls: seq<Poll>, k: nat) {
    && k < |polls|
    && (forall i :: 0 <= i < k ==> polls[i].inTime && polls[i].look.Nothing?)
    && polls[k].inTime && !polls[k].late && polls[k].look == Signed(true)
  }

  lemma {:induction false} DecidesExactly(polls: seq<Poll>)
    ensures Decides(polls) <==> exists k: nat :: ApprovedAt(polls, k)
  {
    if polls != [] && polls[0].inTime && polls[0].look.Nothing? {
      DecidesExactly(polls[1..]);
      if Decides(polls[1..]) {
        var k: nat :| ApprovedAt(polls[1..], k);
        assert ApprovedAt(polls, k + 1);
      }
      if k: nat :| ApprovedAt(polls, k) {
        assert k > 0 && ApprovedAt(polls[1..], k - 1);
      }
    } else if Decides(polls) {
      assert ApprovedAt(polls, 0);
    }
  }

  /** What one `approve` leaves of the tables: the row decided one way or the other and, in
      the same transaction, the key. A used id fails on the primary key. */
  function Decide(s: Store, id: nat, key: nat, enrolling: bool, consumed: bool): Store {
    if id in s.rows then s
    else Store(s.rows[id := if consumed then Consumed else Canceled], if consumed && enrolling then s.approved + {key} else s.approved)
  }

  /** The terminal mail of a decided challenge, if there is one. */
  function Endings(consumed: bool, recorded: bool): (mails: seq<Mail>)
    ensures |mails| <= 1
    ensures ReceiptMail in mails <==> consumed && recorded
    ensures CancelMail in mails <==> !consumed
  {
    if !consumed then [CancelMail] else if recorded then [ReceiptMail] else []
  }

  class Host {
    var rows: map<nat, RowStatus>
    var approved: set<nat>
    var mails: seq<Mail>

    ghost function View(): Store
      reads this
    {
      Store(rows, approved)
    }

    constructor (store: Store)
      ensures View() == Sweep(store) && mails == []
    {
      rows, approved, mails := Sweep(store).rows, store.approved, [];
    }

    /** `WHERE id=? AND status='pending'`. */
    method SetStatus(id: nat, to: RowStatus) returns (changed: nat)
      modifies this`rows
      ensures if id in old(rows) && old(rows)[id].Pending? then rows == old(rows)[id := to] && changed == 1 else rows == old(rows) && changed == 0
    {
      if id in rows && rows[id].Pending? {
        rows := rows[id := to];
        return 1;
      }
      return 0;
    }

    /** How one invocation ends. `delivered` says whether the request could be sent. After the
        transaction, `recorded` says whether the process got as far as the receipt (writing the
        record may fail, and a signal may arrive), and `confirmed` whether the receipt arrived.
        A receipt is sent only for a consumed challenge and a withdrawal exactly for one that
        is not, so never both; a consumed challenge may be left without either. */
    method Approve(id: nat, key: nat, enrolling: bool, delivered: bool, polls: seq<Poll>, recorded: bool, confirmed: bool)
      returns (result: Result)
      modifies this
      ensures var consumed := delivered && Decides(polls);
              && View() == Decide(old(View()), id, key, enrolling, consumed)
              && (id !in old(rows) ==> mails == old(mails) + [RequestMail] + Endings(consumed, recorded))
              && (id in old(rows) ==> mails == old(mails))
              && (result.Approved? <==> id !in old(rows) && consumed && recorded && confirmed)
    {
      result := NotApproved;
      if id in rows {
        return;
      }
      rows := rows[id := Pending];
      mails := mails + [RequestMail];
      if delivered {
        var i := 0;
        while i < |polls| && polls[i].inTime && polls[i].look.Nothing?
          invariant i <= |polls| && Decides(polls[i..]) == Decides(polls)
        {
          assert polls[i..][1..] == polls[i + 1..];
          i := i + 1;
        }
        if i < |polls| && polls[i].inTime && polls[i].look.Signed? && polls[i].look.genuine && !polls[i].late {
          result := Consume(id, key, enrolling, recorded, confirmed);
        }
      }
      var canceled := SetStatus(id, Canceled);
      if canceled > 0 {
        mails := mails + [CancelMail];
      }
    }

    /** The transaction, the record and the receipt. */
    method Consume(id: nat, key: nat, enrolling: bool, recorded: bool, confirmed: bool) returns (result: Result)
      requires id in rows && rows[id].Pending?
      modifies this
      ensures rows == old(rows)[id := Consumed]
      ensures approved == if enrolling then old(approved) + {key} else old(approved)
      ensures mails == old(mails) + Endings(true, recorded)
      ensures result.Approved? <==> recorded && confirmed
    {
      var changed := SetStatus(id, Consumed);
      if enrolling {
        approved := approved + {key};
      }
      if !recorded {
        return NotApproved;
      }
      mails := mails + [ReceiptMail];
      result := if confirmed then Approved else NotApproved;
    }
  }

  // ----- runs with crashes -----

  /** One invocation, seen from the outside. `Crashed` is a process killed between recording
      its challenge and deciding it; `Other` is `status`, `init` or `revoke`. */
  datatype Session =
    | Completed(id: nat, key: nat, enrolling: bool, delivered: bool, polls: seq<Poll>)
    | Crashed(id: nat)
    | Other(revoked: set<nat>)

  /** What a session leaves in the tables, starting with the sweep. */
  function Apply(s: Store, session: Session): Store {
    var swept := Sweep(s);
    match session
    case Completed(id, key, enrolling, delivered, polls) => Decide(swept, id, key, enrolling, delivered && Decides(polls))
    case Crashed(id) => if id in swept.rows then swept else swept.(rows := swept.rows[id := Pending])
    case Other(revoked) => swept.(approved := swept.approved - revoked)
  }

  function Run(s: Store, sessions: seq<Session>): Store
    decreases |sessions|
  {
    if sessions == [] then s else Run(Apply(s, sessions[0]), sessions[1..])
  }

  predicate Enrolls(session: Session, key: nat) {
    session.Completed? && session.enrolling && session.key == key && session.delivered && Decides(session.polls)
  }

  /** A key is approved only by a session that enrolled it and consumed its own challenge. */
  lemma {:induction false} ApprovedOnlyByConsumption(s: Store, sessions: seq<Session>, key: nat) returns (i: nat)
    requires key !in s.approved && key in Run(s, sessions).approved
    ensures i < |sessions| && Enrolls(sessions[i], key)
    ensures sessions[i].id in Run(s, sessions).rows && Run(s, sessions).rows[sessions[i].id] == Consumed
    decreases |sessions|
  {
    var t := Apply(s, sessions[0]);
    if key in t.approved {
      i := 0;
      ConsumedStays(t, sessions[1..], sessions[0].id);
    } else {
      var j := ApprovedOnlyByConsumption(t, sessions[1..], key);
      i := j + 1;
    }
  }

  /** A session consumes its fresh challenge exactly if the request went out and some poll brought
      the approval, and approves its key exactly if it enrolls it as well. */
  lemma SessionDecidesExactly(s: Store, session: Session)
    requires session.Completed? && session.id !in s.rows
    ensures var t := Apply(s, session);
            var consumed := session.delivered && exists k: nat :: ApprovedAt(session.polls, k);
            && session.id in t.rows && t.rows[session.id] == (if consumed then Consumed else Canceled)
            && (forall key :: key in t.approved <==> key in s.approved || (consumed && session.enrolling && key == session.key))
            && (forall id :: id in s.rows ==> id in t.rows && t.rows[id] == if s.rows[id].Consumed? then Consumed else Canceled)
  {
    DecidesExactly(session.polls);
  }

  /** Revoking takes back exactly the keys named, and no other session takes one back. */
  lemma RevokedExactly(s: Store, session: Session, key: nat)
    requires key in s.approved
    ensures key in Apply(s, session).approved <==> !(session.Other? && key in session.revoked)
  {
  }

  /** No restart revives a challenge: decided rows stay as they are, whatever crashes. */
  lemma {:induction false} ConsumedStays(s: Store, sessions: seq<Session>, id: nat)
    requires id in s.rows && !s.rows[id].Pending?
    ensures id in Run(s, sessions).rows && Run(s, sessions).rows[id] == s.rows[id]
    decreases |sessions|
  {
    if sessions != [] {
      ConsumedStays(Apply(s, sessions[0]), sessions[1..], id);
    }
  }

  /** A challenge abandoned by a crash is canceled by the next session, whichever it is. */
  lemma AbandonedIsCanceled(s: Store, id: nat, next: Session, rest: seq<Session>)
    requires id in s.rows && s.rows[id].Pending?
    ensures id in Run(s, [next] + rest).rows && Run(s, [next] + rest).rows[id] == Canceled
  {
    assert ([next] + rest)[1..] == rest;
    ConsumedStays(Apply(s, next), rest, id);
  }
}
