/** `Authority` itself: the locals of `handle` as fields, one method for each stretch of
    code between two places where the coroutine waits, and the table they share. */
module PhoneAuthority {
  import opened Protocol
  import opened TextChecks
  import opened A = AuthoritySteps
  import R = AuthorityRuns
  import P = AuthorityProofs

  /** The one table of `executions.sqlite3`; every method is one transaction. */
  class Database {
    var rows: Rows

    constructor ()
      ensures rows == map[]
    {
      rows := map[];
    }

    method CancelAbandoned()
      modifies this
      ensures rows == Sweep(old(rows))
    {
      rows := map id | id in rows :: if rows[id].status.Pending? || rows[id].status.Ready? then rows[id].(status := Canceled) else rows[id];
    }

    /** `id` is the primary key. */
    method Insert(id: nat, row: Row) returns (inserted: bool)
      modifies this
      ensures inserted <==> id !in old(rows)
      ensures rows == if inserted then old(rows)[id := row] else old(rows)
    {
      inserted := id !in rows;
      if inserted {
        rows := rows[id := row];
      }
    }

    method SetStatus(id: nat, from: RowStatus, to: RowStatus) returns (changed: nat)
      modifies this
      ensures rows == Update(old(rows), id, from, to)
      ensures changed == if id in old(rows) && old(rows)[id].status == from then 1 else 0
    {
      if id in rows && rows[id].status == from {
        rows := rows[id := rows[id].(status := to)];
        return 1;
      }
      return 0;
    }
  }

  /** `response.json` as read from the phone, and one look at it by the clock. */
  datatype Saved = Saved(requestId: nat, signed: bool, payload: Payload, certificateMatches: bool, signature: nat)

  datatype Reading = Reading(asked: nat, saved: Option<Saved>, checked: nat)

  class Authority {
    const index: nat
    const machine: nat
    const phoneKey: nat
    const kdeRoute: bool
    const account: Text
    const db: Database

    var phase: Phase
    var desktopId: Option<nat>
    var startedAt: nat
    var watch: Watch
    var wish: Wish
    var environment: map<Variable, Text>
    var directory: Option<Directory>
    var requestId: Option<nat>
    var payload: Option<Payload>
    var committed: bool
    var terminalSent: bool
    var closing: bool
    var launch: Option<Launch>
    var out: seq<ReplyEvent>
    var mail: seq<Mail>
    /** The world's record; an ideal signature is a signing event in it. */
    var trace: seq<Note>
    ghost var proof: Proof

    ghost function View(): Helper
      reads this
    {
      Helper(phase, desktopId, startedAt, watch, wish, environment, directory, requestId, payload,
             committed, terminalSent, closing, launch, out, mail, proof)
    }

    ghost function Shared(now: nat): World
      reads this, db
    {
      World(machine, phoneKey, kdeRoute, account, db.rows, now, trace)
    }

    /** `main` has the lock; whatever an earlier process left open is abandoned. */
    constructor (index: nat, machine: nat, phoneKey: nat, kdeRoute: bool, account: Text, db: Database, trace: seq<Note>)
      modifies db
      ensures View() == NEWBORN.(phase := AwaitStart) && this.index == index && this.db == db
      ensures forall now: nat :: Shared(now) == World(machine, phoneKey, kdeRoute, account, Sweep(old(db.rows)), now, trace)
    {
      this.index, this.machine, this.phoneKey, this.kdeRoute := index, machine, phoneKey, kdeRoute;
      this.account, this.db := account, db;
      phase, desktopId, startedAt, watch, wish, environment := AwaitStart, None, 0, Watching, NO_WISH, map[];
      directory, requestId, payload, launch := None, None, None, None;
      committed, terminalSent, closing, out, mail := false, false, false, [], [];
      proof, this.trace := Proof(0, 0, 0, 0, 0), trace;
      new;
      db.CancelAbandoned();
    }

    method Send(reply: ReplyEvent, output: Output) returns (drained: bool)
      modifies this`out, this`closing
      ensures View() == A.Send(old(View()), reply, output)
      ensures drained == A.Drained(old(View()), output)
    {
      drained := false;
      if !closing && output.written {
        out := out + [reply];
        closing := !output.drained && output.broken;
        drained := output.drained;
      }
    }

    predicate IsWithdrawn()
      reads this
      ensures IsWithdrawn() == A.Withdrew(View())
    {
      watch.Saw? && watch.line.Spoken? && watch.line.event.CancelEvent? && desktopId == Some(watch.line.id)
    }

    /** The withdrawal checks after every wait for the watcher. */
    method Desert(output: Output)
      modifies this`phase, this`out, this`closing, this`terminalSent
      ensures View() == A.Desert(old(View()), output)
    {
      if IsWithdrawn() {
        terminalSent := Send(CanceledReply, output);
      }
      phase := Failing;
    }

    method Admit(wish: Wish, now: nat)
      modifies this`phase, this`startedAt, this`wish, this`environment
      ensures View() == A.Admit(old(View()), old(Shared(now)), wish)
    {
      this.wish, environment := wish, Base(account) + wish.environment;
      startedAt, phase := now, Discovering;
    }

    method ReadStart(line: DesktopLine, now: nat)
      requires phase.AwaitStart?
      modifies this`phase, this`desktopId, this`startedAt, this`wish, this`environment
      ensures View() == A.ReadStart(old(View()), old(Shared(now)), line)
    {
      if line.Unreadable? {
        phase := Failing;
        return;
      }
      desktopId := Some(line.id);
      if line.event.WishEvent? && line.exact && ValidStart(line.event.wish) {
        Admit(line.event.wish, now);
      } else {
        phase := Failing;
      }
    }

    /** The watcher ends with a line or with an exception. */
    method WatcherEnds(seen: Option<DesktopLine>)
      requires WatcherRuns(phase) && watch.Watching?
      modifies this`watch, this`proof, this`trace
      ensures seen.Some? ==> View() == old(View()).(watch := Saw(seen.value), proof := old(proof).(watchedAt := |old(trace)|))
      ensures seen.None? ==> View() == old(View()).(watch := Lost)
      ensures trace == if seen.Some? then old(trace) + [Watched(index, seen.value)] else old(trace)
    {
      if seen.Some? {
        watch := Saw(seen.value);
        proof := proof.(watchedAt := |trace|);
        trace := trace + [Watched(index, seen.value)];
      } else {
        watch := Lost;
      }
    }

    method Describe(directory: Directory, requestId: nat, issued: nat, now: nat) returns (p: Payload)
      requires desktopId.Some?
      ensures p == A.MakePayload(View(), Shared(now), directory, requestId, issued)
    {
      var execution := Execution(Argv(wish.command), 0, 0, directory, environment);
      p := Payload(machine, phoneKey, requestId, true, desktopId.value, wish.application, wish.command,
                   issued, issued + startedAt + LIFETIME - now, kdeRoute, Some(execution));
    }

    method Request(e: A.Event, now: nat)
      requires desktopId.Some? && e.Discovered? && e.directory.Some?
      modifies this, db
      ensures Move(View(), Shared(now)) == A.Request(old(View()), old(Shared(now)), e)
    {
      var p := Describe(e.directory.value, e.requestId, e.issued, now);
      directory, requestId, payload := e.directory, Some(e.requestId), Some(p);
      var inserted := false;
      if e.stored {
        inserted := db.Insert(e.requestId, Row(desktopId.value, p, Pending));
      }
      phase := if inserted then Delivering else Failing;
    }

    method AfterDiscovery(e: A.Event, now: nat)
      requires phase.Discovering? && desktopId.Some? && e.Discovered?
      modifies this, db
      ensures Move(View(), Shared(now)) == A.Discover(old(View()), old(Shared(now)), e)
    {
      if !watch.Watching? || e.ended || closing || now >= startedAt + LIFETIME {
        Desert(e.output);
        return;
      }
      if !e.found || e.directory.None? {
        phase := Failing;
        return;
      }
      Request(e, now);
    }

    method AfterDelivery(ok: bool, output: Output)
      requires phase.Delivering?
      modifies this
      ensures Move(View(), Shared(0)) == A.Step(index, old(View()), old(Shared(0)), Delivered(ok, output))
    {
      if !watch.Watching? {
        Desert(output);
      } else {
        phase := if ok then Approving else Failing;
      }
    }

    /** Whether one look at the phone's response ends the wait. */
    predicate Decides(r: Reading)
      reads this
    {
      r.asked >= startedAt + LIFETIME || (r.saved.Some? && requestId == Some(r.saved.value.requestId))
    }

    /** The signed response that counts: the first one for this request, found before the
        deadline, good in every respect and checked before the deadline. */
    predicate Counts(readings: seq<Reading>, k: nat)
      reads this
    {
      && k < |readings| && (forall i :: 0 <= i < k ==> !Decides(readings[i]))
      && readings[k].asked < startedAt + LIFETIME && readings[k].checked < startedAt + LIFETIME
      && readings[k].saved.Some?
      && var saved := readings[k].saved.value;
         && requestId == Some(saved.requestId) && saved.signed
         && payload == Some(saved.payload) && saved.certificateMatches
         && saved.signature < |trace| && trace[saved.signature] == Signed(saved.payload)
    }

    /** `response`: looks at the phone until a look decides. */
    method AwaitResponse(readings: seq<Reading>) returns (answer: Answer)
      ensures answer.Answer? <==> exists k: nat :: Counts(readings, k)
      ensures answer.Answer? ==> exists k: nat :: Counts(readings, k) && answer == Answer(payload.value, true, readings[k].saved.value.signature)
      ensures forall now: nat :: answer.Answer? && now < startedAt + LIFETIME ==> Verifies(View(), Shared(now), answer)
    {
      for i := 0 to |readings|
        invariant forall j :: 0 <= j < i ==> !Decides(readings[j])
      {
        var r := readings[i];
        if r.asked >= startedAt + LIFETIME {
          return NoAnswer;
        }
        if r.saved.Some? && requestId == Some(r.saved.value.requestId) {
          var saved := r.saved.value;
          if !saved.signed || payload != Some(saved.payload) || !saved.certificateMatches {
            return NoAnswer;
          }
          if saved.signature >= |trace| || trace[saved.signature] != Signed(saved.payload) || r.checked >= startedAt + LIFETIME {
            return NoAnswer;
          }
          assert Counts(readings, i);
          return Answer(saved.payload, saved.certificateMatches, saved.signature);
        }
      }
      return NoAnswer;
    }

    method AfterApproval(answer: Answer, output: Output, now: nat)
      requires phase.Approving? && requestId.Some?
      modifies this, db
      ensures Move(View(), Shared(now)) == A.Approve(index, old(View()), old(Shared(now)), answer, output)
    {
      if !watch.Watching? {
        Desert(output);
        return;
      }
      var matches := answer.Answer? && payload == Some(answer.payload) && answer.certificateMatches;
      if matches {
        matches := answer.signature < |trace| && trace[answer.signature] == Signed(answer.payload) && now < startedAt + LIFETIME;
      }
      if matches {
        MarkReady(answer.signature);
      } else {
        phase := Failing;
      }
    }

    method MarkReady(signature: nat)
      requires requestId.Some?
      modifies this`phase, this`proof, this`trace, db
      ensures Move(View(), Shared(0)) == A.MarkReady(index, old(View()), old(Shared(0)), signature)
    {
      var changed := db.SetStatus(requestId.value, Pending, Ready);
      phase := Announcing;
      proof := proof.(signature := signature, verifiedAt := |trace|);
      trace := trace + [Verified(index, signature)];
    }

    method SendReady(output: Output)
      requires phase.Announcing?
      modifies this
      ensures Move(View(), Shared(0)) == A.Step(index, old(View()), old(Shared(0)), ReadySent(output))
    {
      var drained := Send(ReadyReply, output);
      phase := if drained then AwaitCommit else Failing;
    }

    method AfterCommit(e: A.Event, now: nat)
      requires phase.AwaitCommit? && requestId.Some? && e.CommitRead?
      modifies this, db
      ensures Move(View(), Shared(now)) == A.AcceptCommit(index, old(View()), old(Shared(now)), e)
    {
      if watch.Watching? {
        return;
      }
      if watch.Lost? || IsWithdrawn() {
        Desert(e.output);
        return;
      }
      if !IsCommit(watch.line, desktopId) || now >= startedAt + LIFETIME || e.ended || closing || !e.configured {
        phase := Failing;
        return;
      }
      Consume(now);
    }

    /** No wait between accepting the commit and consuming the proof. */
    method Consume(now: nat)
      requires requestId.Some?
      modifies this`phase, this`committed, this`proof, this`trace, db
      ensures Move(View(), Shared(now)) == A.Consume(index, old(View()), old(Shared(now)), requestId.value)
    {
      var changed := db.SetStatus(requestId.value, Ready, Consumed);
      if changed != 1 {
        phase := Failing;
        return;
      }
      phase, committed := Accepted, true;
      proof := proof.(takenAt := |trace|);
      trace := trace + [Took(index, requestId.value, now)];
    }

    method Begin(child: Launch)
      modifies this`phase, this`launch, this`proof, this`trace
      ensures Move(View(), Shared(0)) == A.Begin(index, old(View()), old(Shared(0)), child)
    {
      phase, launch := Launched, Some(child);
      proof := proof.(launchedAt := |trace|);
      trace := trace + [Started(index, child)];
    }

    /** `subprocess.Popen` after the command log has been opened. */
    method Spawn(ok: bool)
      requires phase.Accepted? && requestId.Some? && directory.Some?
      modifies this`phase, this`launch, this`proof, this`trace
      ensures Move(View(), Shared(0)) == A.Spawn(index, old(View()), old(Shared(0)), ok)
    {
      if ok {
        Begin(Launch(requestId.value, Argv(wish.command), 0, 0, directory.value, environment));
      } else {
        phase := Failing;
      }
    }

    /** The `finally` clause writes `executed` whether or not the receipt arrived. */
    method ReportExecuted(pid: nat, output: Output)
      requires phase.Reporting?
      modifies this
      ensures Move(View(), Shared(0)) == A.Step(index, old(View()), old(Shared(0)), ExecutedSent(pid, output))
    {
      var delivered := phase.delivered;
      terminalSent := Send(ExecutedReply(Some(pid as real)), output);
      phase := if terminalSent && delivered then CleaningUp else Failing;
    }

    method ReportError(output: Output)
      requires phase.Failing?
      modifies this
      ensures View() == A.SendError(old(View()), output) && Shared(0) == old(Shared(0))
    {
      if desktopId.Some? && !terminalSent {
        var drained := Send(ErrorReply(true, committed), output);
      }
      phase := CleaningUp;
    }

    /** The outer `finally` clause. */
    method CleanUp()
      requires phase.CleaningUp?
      modifies this, db
      ensures Move(View(), Shared(0)) == A.ClearRow(old(View()), old(Shared(0)))
    {
      phase := Gone;
      if requestId.Some? && !committed {
        var pending := db.SetStatus(requestId.value, Pending, Canceled);
        var ready := db.SetStatus(requestId.value, Ready, Canceled);
        phase := Withdrawing;
      }
    }

    /** `last-execution.json` is written, or not. */
    method Record(ok: bool)
      requires phase.Launched?
      modifies this`phase
      ensures Move(View(), Shared(0)) == A.Step(index, old(View()), old(Shared(0)), Recorded(ok))
    {
      phase := if ok then Confirming else Failing;
    }

    method MailReceipt(ok: bool)
      requires phase.Confirming?
      modifies this`phase, this`mail
      ensures Move(View(), Shared(0)) == A.Step(index, old(View()), old(Shared(0)), ReceiptDelivered(ok))
    {
      mail, phase := mail + [ReceiptMail], Reporting(ok);
    }

    method MailWithdrawal()
      requires phase.Withdrawing?
      modifies this`phase, this`mail
      ensures Move(View(), Shared(0)) == A.Step(index, old(View()), old(Shared(0)), WithdrawalDelivered)
    {
      mail, phase := mail + [CancelMail], Gone;
    }

    /** The coroutine is cancelled while it waits. */
    method Interrupt()
      modifies this`phase, this`mail
      ensures Move(View(), Shared(0)) == A.Step(index, old(View()), old(Shared(0)), Interrupted)
    {
      if Suspended(phase) {
        phase := Failing;
      } else if phase.Confirming? {
        mail, phase := mail + [ReceiptMail], Reporting(false);
      }
    }

    /** What happens to the process from outside. */
    method Suffer(e: A.Event)
      requires e.Interrupted? || e.OutputBroken? || e.Killed?
      modifies this`phase, this`mail, this`closing
      ensures Move(View(), Shared(0)) == A.Step(index, old(View()), old(Shared(0)), e)
    {
      match e {
        case Interrupted => Interrupt();
        case OutputBroken => Break();
        case Killed => Die();
      }
    }

    method Break()
      modifies this`closing
      ensures Move(View(), Shared(0)) == A.Step(index, old(View()), old(Shared(0)), OutputBroken)
    {
      closing := true;
    }

    method Die()
      modifies this`phase
      ensures Move(View(), Shared(0)) == A.Step(index, old(View()), old(Shared(0)), Killed)
    {
      phase := Gone;
    }

    /** The coroutine up to the accepted commit. */
    method Approve(e: A.Event, now: nat)
      requires e.StartRead? || e.WatcherRead? || e.WatcherLost? || e.Discovered? || e.Delivered? || e.Approved? || e.ReadySent? || e.CommitRead?
      modifies this, db
      ensures Move(View(), Shared(now)) == A.Step(index, old(View()), old(Shared(now)), e)
    {
      match e {
        case StartRead(line) => if phase.AwaitStart? { ReadStart(line, now); }
        case WatcherRead(line) => if WatcherRuns(phase) && watch.Watching? { WatcherEnds(Some(line)); }
        case WatcherLost => if WatcherRuns(phase) && watch.Watching? { WatcherEnds(None); }
        case Discovered(_, _, _, _, _, _, _) => if phase.Discovering? && desktopId.Some? { AfterDiscovery(e, now); }
        case Delivered(ok, output) => if phase.Delivering? { AfterDelivery(ok, output); }
        case Approved(answer, output) => if phase.Approving? && requestId.Some? { AfterApproval(answer, output, now); }
        case ReadySent(output) => if phase.Announcing? { SendReady(output); }
        case CommitRead(_, _, _) => if phase.AwaitCommit? && requestId.Some? { AfterCommit(e, now); }
      }
    }

    /** The coroutine from the accepted commit to the report. */
    method Execute(e: A.Event)
      requires e.Spawned? || e.Recorded? || e.ReceiptDelivered? || e.ExecutedSent?
      modifies this
      ensures Move(View(), Shared(0)) == A.Step(index, old(View()), old(Shared(0)), e)
    {
      match e {
        case Spawned(ok) => if phase.Accepted? && requestId.Some? && directory.Some? { Spawn(ok); }
        case Recorded(ok) => if phase.Launched? { Record(ok); }
        case ReceiptDelivered(ok) => if phase.Confirming? { MailReceipt(ok); }
        case ExecutedSent(pid, output) => if phase.Reporting? { ReportExecuted(pid, output); }
      }
    }

    /** The `except` and `finally` clauses. */
    method Conclude(e: A.Event)
      requires e.ErrorSent? || e.RowCleared? || e.WithdrawalDelivered?
      modifies this, db
      ensures Move(View(), Shared(0)) == A.Step(index, old(View()), old(Shared(0)), e)
    {
      match e {
        case ErrorSent(output) => if phase.Failing? { ReportError(output); }
        case RowCleared => if phase.CleaningUp? { CleanUp(); }
        case WithdrawalDelivered => if phase.Withdrawing? { MailWithdrawal(); }
      }
    }

    /** The phone makes a signature somewhere; it is in the record from now on. */
    method Witness(p: Payload)
      modifies this`trace
      ensures trace == old(trace) + [Signed(p)]
      ensures old(Holds()) ==> Holds()
    {
      trace := trace + [Signed(p)];
    }

    /** Any event of this process. Its replies and mail stay true of it for ever, its record
        stays backed by the table and the trace, rows only move along their life cycle, and
        while it holds the lock every open row is its own. */
    method Handle(e: A.Event, now: nat)
      modifies this, db
      ensures Move(View(), Shared(now)) == A.Step(index, old(View()), old(Shared(now)), e)
      ensures R.Sound(old(View())) ==> R.Sound(View())
      ensures old(Holds()) ==> Holds() && P.Evolves(old(db.rows), db.rows) && old(trace) <= trace
    {
      ghost var h, w := View(), Shared(now);
      Dispatch(e, now);
      if R.Sound(h) {
        R.StepIsSound(index, h, w, e);
      }
      if R.Sound(h) && P.Backed(h, w.rows) && P.Traced(index, h, w.trace) && P.Owns(h, w.rows) {
        P.StepKeeps(index, h, w, e);
      }
    }

    /** What holds of the process with the lock. */
    ghost predicate Holds()
      reads this, db
    {
      R.Sound(View()) && P.Backed(View(), db.rows) && P.Traced(index, View(), trace) && P.Owns(View(), db.rows)
    }

    method Dispatch(e: A.Event, now: nat)
      modifies this, db
      ensures Move(View(), Shared(now)) == A.Step(index, old(View()), old(Shared(now)), e)
    {
      if e.StartRead? || e.WatcherRead? || e.WatcherLost? || e.Discovered? || e.Delivered? || e.Approved? || e.ReadySent? || e.CommitRead? {
        Approve(e, now);
      } else if e.Spawned? || e.Recorded? || e.ReceiptDelivered? || e.ExecutedSent? {
        Execute(e);
      } else if e.ErrorSent? || e.RowCleared? || e.WithdrawalDelivered? {
        Conclude(e);
      } else if !e.Boot? {
        Suffer(e);
      }
    }
  }
}
