/** The child-process transport: `KdeConnectPhone` on the authority's side of two pipes and
    the worker's loop on the other. No message carries a number, so everything depends on
    closing the transport at the first failure. */
module KdeTransport {
  import opened Protocol
  import opened Framing
  import opened LanFrames

  /** One round of `select` and `os.read`: bytes of the worker's output, or an end. */
  datatype Chunk = Data(bytes: seq<Byte>) | TimedOut | Exited

  /** `Failed` is any exception. */
  datatype Reply = Returned(line: RawLine) | Failed

  datatype TerminalName = ReceiptName | CancelName

  /** What a file carries: the signed request, or a terminal message with its request. */
  datatype Mail =
    | RequestMail(id: nat, value: seq<Byte>)
    | TerminalMail(name: TerminalName, id: nat, value: seq<Byte>, request: seq<Byte>)

  datatype Command = CheckCommand | ReadCommand | SendCommand(mail: Mail)

  /** `_encode` of a command and of a mail. */
  datatype Encoding = Encoding(command: Command -> RawLine, mail: Mail -> seq<Byte>)

  const CHUNK: nat := 8192

  /** `navi-auth-<name>-<id>.json`, with an id of 32 digits. */
  function FilenameLength(mail: Mail): nat {
    |"navi-auth-"| + |"-"| + 32 + |".json"|
    + match mail
      case RequestMail(_, _) => |"request"|
      case TerminalMail(name, _, _, _) => if name.ReceiptName? then |"receipt"| else |"cancel"|
  }

  /** JSON: one line each, different commands to different lines, and a send command as long
      as its parts. */
  ghost predicate Faithful(encoding: Encoding) {
    && (forall c :: OneLine(encoding.command(c)))
    && (forall a, b :: encoding.command(a) == encoding.command(b) ==> a == b)
    && (forall m :: |encoding.command(SendCommand(m))| == SendCommandLength(FilenameLength(m), |encoding.mail(m)|))
  }

  /** The lines that commands are on the wire. */
  function Wire(encoding: Encoding, commands: seq<Command>): (lines: seq<RawLine>)
    ensures |lines| == |commands|
  {
    seq(|commands|, i requires 0 <= i < |commands| => encoding.command(commands[i]))
  }

  lemma WireAppend(encoding: Encoding, commands: seq<Command>, command: Command)
    ensures Wire(encoding, commands + [command]) == Wire(encoding, commands) + [encoding.command(command)]
  {
  }

  /** Every mail is the one request or carries it. */
  predicate Carries(command: Command, id: Option<nat>, request: Option<seq<Byte>>) {
    command.SendCommand? ==>
      match command.mail
      case RequestMail(i, value) => id == Some(i) && request == Some(value)
      case TerminalMail(_, i, _, r) => id == Some(i) && request == Some(r)
  }

  predicate SendsRequest(command: Command) {
    command.SendCommand? && command.mail.RequestMail?
  }

  function Concat(schedule: seq<Chunk>): (bytes: seq<Byte>) {
    if schedule == [] then [] else (if schedule[0].Data? then schedule[0].bytes else []) + Concat(schedule[1..])
  }

  lemma {:induction false} ConcatSnoc(schedule: seq<Chunk>, chunk: Chunk)
    ensures Concat(schedule + [chunk]) == Concat(schedule) + if chunk.Data? then chunk.bytes else []
    decreases |schedule|
  {
    if schedule != [] {
      assert (schedule + [chunk])[1..] == schedule[1..] + [chunk];
      ConcatSnoc(schedule[1..], chunk);
    } else {
      assert (schedule + [chunk])[1..] == [];
    }
  }

  /** The first `n` reads complete a line within the limit before anything goes wrong. */
  predicate Arrives(input: seq<Byte>, schedule: seq<Chunk>, n: nat) {
    && n <= |schedule|
    && (forall i :: 0 <= i < n ==> schedule[i].Data? && 0 < |schedule[i].bytes| <= CHUNK)
    && (forall i :: 0 <= i <= n ==> |input| + |Concat(schedule[..i])| <= FRAME_LIMIT)
    && Complete(input + Concat(schedule[..n]))
  }

  lemma NextArrives(input: seq<Byte>, schedule: seq<Chunk>, i: nat, n: nat)
    requires i < |schedule|
    ensures Arrives(input, schedule, n) && i < n ==>
              && schedule[i].Data? && 0 < |schedule[i].bytes| <= CHUNK
              && Concat(schedule[..i + 1]) == Concat(schedule[..i]) + schedule[i].bytes
              && |input + Concat(schedule[..i])| + |schedule[i].bytes| <= FRAME_LIMIT
  {
    assert schedule[..i + 1] == schedule[..i] + [schedule[i]];
    ConcatSnoc(schedule[..i], schedule[i]);
  }

  /** What a failed write leaves behind has no newline in it. */
  lemma PartOfALine(before: seq<Byte>, line: RawLine, after: seq<Byte>)
    requires OneLine(line) && before <= after <= before + (line + [NEWLINE]) && after != before + (line + [NEWLINE])
    ensures after == before + after[|before|..] && OneLine(after[|before|..])
  {
    var part := after[|before|..];
    assert after == (before + (line + [NEWLINE]))[..|after|];
    assert part == (line + [NEWLINE])[..|part|] == line[..|part|];
  }

  class KdeConnectPhone {
    const encoding: Encoding
    var input: seq<Byte>
    var open: bool
    var requestId: Option<nat>
    var request: Option<seq<Byte>>
    /** Every byte written: whole commands, and perhaps part of one more. */
    ghost var wrote: seq<Byte>
    ghost var commands: seq<Command>
    ghost var partial: RawLine
    /** The lines returned to callers or to the constructor, and every byte read. */
    ghost var replies: seq<RawLine>
    ghost var arrived: seq<Byte>

    /** While the transport is open, it has taken exactly one line for its greeting and one
        for every command. */
    ghost predicate Wired()
      reads this
    {
      && Faithful(encoding)
      && (open ==> arrived == Encode(replies) + input && AllOneLine(replies) && |replies| == |commands| + 1)
      && (open ==> partial == [] && |input| <= FRAME_LIMIT)
      && wrote == Encode(Wire(encoding, commands)) + partial && OneLine(partial)
    }

    /** The request is set once, is sent at most once, and goes with every mail. */
    ghost predicate Bound()
      reads this
    {
      && (request.Some? <==> requestId.Some?)
      && (forall i :: 0 <= i < |commands| ==> Carries(commands[i], requestId, request))
      && (forall i, j :: 0 <= i < j < |commands| ==> !SendsRequest(commands[i]) || !SendsRequest(commands[j]))
    }

    ghost predicate Valid()
      reads this
    {
      Wired() && Bound()
    }

    /** `_write_all`, over what the kernel does until the time is up. */
    method WriteAll(data: seq<Byte>, schedule: seq<Kernel>) returns (sent: bool)
      modifies this`wrote
      ensures old(wrote) <= wrote <= old(wrote) + data
      ensures sent <==> wrote == old(wrote) + data
      ensures |wrote| == |old(wrote)| + Least(Capacity(schedule), |data|)
    {
      var rest := data;
      var i := 0;
      assert schedule[0..] == schedule;
      while rest != [] && i < |schedule|
        invariant i <= |schedule| && old(wrote) <= wrote && wrote + rest == old(wrote) + data
        invariant |wrote| + Least(Capacity(schedule[i..]), |rest|) == |old(wrote)| + Least(Capacity(schedule), |data|)
        decreases |schedule| - i
      {
        CapacityFrom(schedule, i);
        match schedule[i] {
          case Takes(count) =>
            var written := if count + 1 < |rest| then count + 1 else |rest|;
            assert wrote + rest == wrote + rest[..written] + rest[written..];
            wrote := wrote + rest[..written];
            rest := rest[written..];
          case Blocks =>
          case Breaks => return false;
        }
        i := i + 1;
      }
      sent := rest == [];
    }

    /** One round of `select` and `os.read`. */
    method Pull(chunk: Chunk) returns (failed: bool, ghost got: seq<Byte>)
      requires |input| <= FRAME_LIMIT
      modifies this`input, this`arrived
      ensures arrived == old(arrived) + got && input == old(input) + got
      ensures !failed ==> |input| <= FRAME_LIMIT
      ensures chunk.Data? && 0 < |chunk.bytes| <= CHUNK && |old(input)| + |chunk.bytes| <= FRAME_LIMIT ==>
                !failed && got == chunk.bytes
    {
      if !chunk.Data? || chunk.bytes == [] {
        return true, [];
      }
      var space := FRAME_LIMIT + 1 - |input|;
      var limit := if space < CHUNK then space else CHUNK;
      var raw := if |chunk.bytes| < limit then chunk.bytes else chunk.bytes[..limit];
      arrived := arrived + raw;
      input := input + raw;
      failed, got := |input| > FRAME_LIMIT, raw;
    }

    /** The loop of `_receive`, over a schedule of reads that ends when the time is up: whether
        a line is complete then, and what came in. */
    method Gather(schedule: seq<Chunk>) returns (complete: bool, ghost taken: seq<Byte>)
      requires |input| <= FRAME_LIMIT
      modifies this`input, this`arrived
      ensures arrived == old(arrived) + taken && input == old(input) + taken
      ensures complete ==> |input| <= FRAME_LIMIT && Complete(input)
      ensures (exists n: nat :: Arrives(old(input), schedule, n)) ==> complete
    {
      ghost var good := exists n: nat :: Arrives(input, schedule, n);
      ghost var last: nat := 0;
      if good {
        last :| Arrives(input, schedule, last);
      }
      var i := 0;
      taken := [];
      while i < |schedule| && !Complete(input)
        invariant i <= |schedule| && |input| <= FRAME_LIMIT
        invariant arrived == old(arrived) + taken && input == old(input) + taken
        invariant good ==> i <= last && taken == Concat(schedule[..i])
      {
        NextArrives(old(input), schedule, i, last);
        var failed, got := Pull(schedule[i]);
        taken := taken + got;
        if failed {
          return false, taken;
        }
        i := i + 1;
      }
      complete := Complete(input);
    }

    /** `_receive`: the next line, or the first failure. */
    method Receive(schedule: seq<Chunk>) returns (reply: Reply)
      requires |input| <= FRAME_LIMIT
      modifies this`input, this`arrived
      ensures old(arrived) <= arrived
      ensures reply.Returned? ==>
                && |input| <= FRAME_LIMIT && OneLine(reply.line)
                && old(input) + arrived[|old(arrived)|..] == reply.line + [NEWLINE] + input
      ensures (exists n: nat :: Arrives(old(input), schedule, n)) ==> reply.Returned?
    {
      var complete, taken := Gather(schedule);
      if !complete {
        return Failed;
      }
      assert arrived[|old(arrived)|..] == taken;
      Partition(input);
      reply := Returned(Head(input));
      input := Tail(input);
    }

    /** The greeting is the first line; without a good one there is no transport. */
    constructor (encoding: Encoding, schedule: seq<Chunk>, good: bool)
      requires Faithful(encoding)
      ensures Valid() && commands == [] && requestId == None && this.encoding == encoding
      ensures open ==> good
      ensures good && (exists n: nat :: Arrives([], schedule, n)) ==> open
    {
      this.encoding := encoding;
      input, open, requestId, request := [], true, None, None;
      wrote, commands, partial, replies, arrived := [], [], [], [], [];
      new;
      assert Wire(encoding, []) == [] && Encode(Wire(encoding, [])) == [];
      Greet(schedule, good);
    }

    method Greet(schedule: seq<Chunk>, good: bool)
      requires input == [] && arrived == []
      modifies this`input, this`open, this`replies, this`arrived
      ensures open ==> good
      ensures old(open) && good && (exists n: nat :: Arrives([], schedule, n)) ==> open
      ensures open ==> old(open) && |replies| == 1 && AllOneLine(replies) && arrived == Encode(replies) + input && |input| <= FRAME_LIMIT
    {
      var hello := Receive(schedule);
      if hello.Failed? || !good {
        Close();
        return;
      }
      assert [] + arrived[0..] == arrived;
      replies := [hello.line];
      assert Encode(replies) == hello.line + [NEWLINE];
    }

    method Close()
      modifies this`open
      ensures !open
    {
      open := false;
    }

    /** The first half of `_rpc`. */
    method SendLine(command: Command, writes: seq<Kernel>) returns (sent: bool)
      requires Faithful(encoding) && wrote == Encode(Wire(encoding, commands)) && partial == []
      modifies this`open, this`commands, this`partial, this`wrote
      ensures wrote == Encode(Wire(encoding, commands)) + partial && OneLine(partial)
      ensures sent ==> open == old(open) && commands == old(commands) + [command] && partial == []
      ensures !sent ==> !open && commands == old(commands)
      ensures sent <==> Capacity(writes) > |encoding.command(command)|
    {
      var line := encoding.command(command);
      EncodeLast(Wire(encoding, commands), line);
      WireAppend(encoding, commands, command);
      sent := WriteAll(line + [NEWLINE], writes);
      if sent {
        commands := commands + [command];
      } else {
        partial := wrote[|old(wrote)|..];
        PartOfALine(old(wrote), line, wrote);
        Close();
      }
    }

    /** The second half of `_rpc`: `ok` is what the reply says of itself. */
    method TakeReply(schedule: seq<Chunk>, ok: bool) returns (reply: Reply)
      requires arrived == Encode(replies) + input && AllOneLine(replies) && |input| <= FRAME_LIMIT
      modifies this`input, this`open, this`replies, this`arrived
      ensures old(arrived) <= arrived
      ensures reply.Failed? ==> !open
      ensures reply.Returned? ==>
                && open == old(open) && replies == old(replies) + [reply.line] && AllOneLine(replies)
                && arrived == Encode(replies) + input && |input| <= FRAME_LIMIT
      ensures ok && (exists n: nat :: Arrives(old(input), schedule, n)) ==> reply.Returned?
      ensures !ok ==> reply.Failed?
    {
      reply := Receive(schedule);
      if reply.Failed? || !ok {
        Close();
        return Failed;
      }
      EncodeLast(replies, reply.line);
      calc {
        arrived;
        Encode(replies) + (old(input) + arrived[|old(arrived)|..]);
        Encode(replies) + (reply.line + [NEWLINE] + input);
        Encode(replies) + reply.line + [NEWLINE] + input;
      }
      replies := replies + [reply.line];
    }

    predicate Fits(command: Command)
      reads this
    {
      |encoding.command(command)| + 1 <= FRAME_LIMIT
    }

    /** A mail within its limit, over an open transport that works. */
    predicate Delivers(mail: Mail, writes: seq<Kernel>, schedule: seq<Chunk>, ok: bool)
      reads this
    {
      open && |encoding.mail(mail)| <= VALUE_LIMIT && Goes(SendCommand(mail), writes, schedule, ok)
    }

    /** A terminal message with the transport's own request. */
    function Terminal(name: TerminalName, value: seq<Byte>): Mail
      reads this
    {
      TerminalMail(name, if requestId.Some? then requestId.value else 0, value, if request.Some? then request.value else [])
    }

    /** The command fits, all of it is written in time, and an answer that says so comes back. */
    predicate Goes(command: Command, writes: seq<Kernel>, schedule: seq<Chunk>, ok: bool)
      reads this
    {
      Fits(command) && Capacity(writes) > |encoding.command(command)| && ok && exists n: nat :: n <= |schedule| && Arrives(input, schedule, n)
    }

    method Rpc(command: Command, writes: seq<Kernel>, schedule: seq<Chunk>, ok: bool) returns (reply: Reply)
      requires Wired()
      modifies this`input, this`open, this`commands, this`partial, this`wrote, this`replies, this`arrived
      ensures Wired() && old(arrived) <= arrived
      ensures commands == old(commands) || commands == old(commands) + [command]
      ensures reply.Returned? ==>
                old(open) && open && commands == old(commands) + [command] && replies == old(replies) + [reply.line]
      ensures reply.Failed? && old(open) && Fits(command) ==> !open
      ensures reply.Failed? && (!old(open) || !Fits(command)) ==>
                open == old(open) && commands == old(commands) && replies == old(replies) && arrived == old(arrived)
      ensures !old(open) || !ok ==> reply.Failed?
      ensures old(open) && old(Goes(command, writes, schedule, ok)) ==> reply.Returned?
    {
      if !open || |encoding.command(command)| + 1 > FRAME_LIMIT {
        return Failed;
      }
      var sent := SendLine(command, writes);
      if !sent {
        return Failed;
      }
      reply := TakeReply(schedule, ok);
    }

    /** `write` of the request: `bound` says whether it names this transport. */
    method WriteRequest(id: nat, value: seq<Byte>, bound: bool, writes: seq<Kernel>, schedule: seq<Chunk>, ok: bool) returns (done: bool)
      requires Valid()
      modifies this
      ensures Valid()
      ensures !bound ==> !done && commands == old(commands) && requestId == old(requestId) && request == old(request)
      ensures old(requestId).Some? ==> !done && requestId == old(requestId) && request == old(request) && commands == old(commands)
      ensures done ==> commands == old(commands) + [SendCommand(RequestMail(id, value))] && requestId == Some(id) && request == Some(value)
      ensures !done && commands != old(commands) ==> !open
      ensures bound && old(requestId).None? && old(Delivers(RequestMail(id, value), writes, schedule, ok)) ==> done
    {
      if !bound || requestId.Some? {
        return false;
      }
      assert forall i :: 0 <= i < |commands| ==> !commands[i].SendCommand?;
      requestId, request := Some(id), Some(value);
      done := Post(RequestMail(id, value), writes, schedule, ok);
    }

    /** `write` of a receipt or a withdrawal, to which the request is added. */
    method WriteTerminal(name: TerminalName, value: seq<Byte>, writes: seq<Kernel>, schedule: seq<Chunk>, ok: bool) returns (done: bool)
      requires Valid()
      modifies this
      ensures Valid() && requestId == old(requestId) && request == old(request)
      ensures requestId.None? ==> !done && commands == old(commands)
      ensures done ==> requestId.Some? && commands == old(commands) + [SendCommand(TerminalMail(name, requestId.value, value, request.value))]
      ensures !done && commands != old(commands) ==> !open
      ensures requestId.Some? && old(Delivers(Terminal(name, value), writes, schedule, ok)) ==> done
    {
      if request.None? {
        return false;
      }
      done := Post(TerminalMail(name, requestId.value, value, request.value), writes, schedule, ok);
    }

    /** The end of `write`. A mail within its limit never makes an oversized command, so a mail
        that is tried and not delivered closes the transport. */
    method Post(mail: Mail, writes: seq<Kernel>, schedule: seq<Chunk>, ok: bool) returns (done: bool)
      requires Valid() && Carries(SendCommand(mail), requestId, request)
      requires mail.RequestMail? ==> forall i :: 0 <= i < |commands| ==> !SendsRequest(commands[i])
      modifies this`input, this`open, this`commands, this`partial, this`wrote, this`replies, this`arrived
      ensures Valid()
      ensures commands == old(commands) || commands == old(commands) + [SendCommand(mail)]
      ensures done ==> commands == old(commands) + [SendCommand(mail)] && open
      ensures !done && open ==> commands == old(commands) && (|encoding.mail(mail)| > VALUE_LIMIT)
      ensures old(Delivers(mail, writes, schedule, ok)) ==> done
      ensures |encoding.mail(mail)| > VALUE_LIMIT ==> !done && commands == old(commands) && open == old(open)
    {
      if |encoding.mail(mail)| > VALUE_LIMIT {
        return false;
      }
      MailSizesClose(FilenameLength(mail), |encoding.mail(mail)|);
      var reply := Rpc(SendCommand(mail), writes, schedule, ok);
      done := reply.Returned?;
    }

    /** `read`: nothing is asked before a request has been set. */
    method Read(writes: seq<Kernel>, schedule: seq<Chunk>, ok: bool) returns (reply: Option<Reply>)
      requires Valid()
      modifies this`input, this`open, this`commands, this`partial, this`wrote, this`replies, this`arrived
      ensures Valid() && (reply.Some? <==> requestId.Some?)
      ensures reply.Some? && reply.value.Returned? ==>
                replies == old(replies) + [reply.value.line] && commands == old(commands) + [ReadCommand]
      ensures reply.Some? && old(open) && old(Goes(ReadCommand, writes, schedule, ok)) ==> reply.value.Returned?
    {
      if requestId.None? {
        return None;
      }
      var answer := Rpc(ReadCommand, writes, schedule, ok);
      reply := Some(answer);
    }
  }

  // ----- the worker -----

  /** How `emit` ends for one command: a line, which after a failed first attempt may begin
      with part of another, or, if reporting the failure fails too, part of a line. */
  datatype Emission = Emitted(line: RawLine) | Broken(part: RawLine)

  /** `stdin_ready` and the buffer it works on. */
  class Worker {
    var incoming: seq<Byte>
    var running: bool
    /** Every byte read, the lines handled, and what is left over. */
    ghost var received: seq<Byte>
    ghost var handled: seq<RawLine>
    ghost var unread: seq<Byte>
    /** The lines written for them, in turn, and part of one more. */
    ghost var answered: seq<RawLine>
    ghost var tail: RawLine

    ghost predicate Valid()
      reads this
    {
      && received == Encode(handled) + unread && AllOneLine(handled)
      && AllOneLine(answered) && OneLine(tail) && |answered| <= |handled|
      && (running ==> unread == incoming && OneLine(incoming) && |answered| == |handled| && tail == [])
    }

    /** The bytes the worker has written after its greeting. */
    ghost function Written(): seq<Byte>
      reads this
    {
      Encode(answered) + tail
    }

    constructor ()
      ensures Valid() && handled == [] && answered == [] && tail == []
    {
      incoming, running, received, handled, unread, answered, tail := [], true, [], [], [], [], [];
    }

    /** One call, which has read `chunk`; `emission(i)` is what becomes of the i-th line it
        completes. The first that cannot be answered ends the loop for good. */
    method StdinReady(chunk: seq<Byte>, emission: nat -> Emission)
      requires Valid() && running
      requires forall i :: if emission(i).Emitted? then OneLine(emission(i).line) else OneLine(emission(i).part)
      modifies this
      ensures Valid()
      ensures received == old(received) + chunk
      ensures old(handled) <= handled && old(answered) <= answered
      ensures var n := |old(answered)|;
              && (forall i :: n <= i < |answered| ==> emission(i - n) == Emitted(answered[i]))
              && (chunk != [] && !running && |old(incoming)| + |chunk| <= FRAME_LIMIT ==>
                    emission(|answered| - n) == Broken(tail) && |handled| == |answered| + 1)
              && (running ==> chunk != [])
    {
      if chunk == [] {
        running := false;
        return;
      }
      assert received + chunk == Encode(handled) + (incoming + chunk);
      incoming, received, unread := incoming + chunk, received + chunk, unread + chunk;
      if |incoming| > FRAME_LIMIT {
        running := false;
        return;
      }
      Answer(emission);
    }

    /** The loop over complete lines. */
    method Answer(emission: nat -> Emission)
      requires received == Encode(handled) + incoming && unread == incoming && AllOneLine(handled)
      requires AllOneLine(answered) && tail == [] && |answered| == |handled| && running
      requires forall i :: if emission(i).Emitted? then OneLine(emission(i).line) else OneLine(emission(i).part)
      modifies this`incoming, this`handled, this`unread, this`answered, this`tail, this`running
      ensures Valid() && old(handled) <= handled && old(answered) <= answered
      ensures forall i :: |old(answered)| <= i < |answered| ==> emission(i - |old(answered)|) == Emitted(answered[i])
      ensures !running ==> emission(|answered| - |old(answered)|) == Broken(tail) && |handled| == |answered| + 1
    {
      var i := 0;
      while Complete(incoming) && running
        invariant received == Encode(handled) + unread && unread == incoming && AllOneLine(handled) && old(handled) <= handled
        invariant AllOneLine(answered) && old(answered) <= answered && OneLine(tail)
        invariant forall j :: |old(answered)| <= j < |answered| ==> emission(j - |old(answered)|) == Emitted(answered[j])
        invariant i == |answered| - |old(answered)|
        invariant running ==> |answered| == |handled| && tail == []
        invariant !running ==> emission(i) == Broken(tail) && |handled| == |answered| + 1
        decreases |incoming|
      {
        TakeLine(handled, incoming);
        handled, incoming := handled + [Head(incoming)], Tail(incoming);
        unread := incoming;
        match emission(i) {
          case Emitted(line) =>
            answered := answered + [line];
            i := i + 1;
          case Broken(part) =>
            tail := part;
            running := false;
        }
      }
      assert running ==> Index(incoming) == |incoming|;
    }
  }

  // ----- the two together -----

  /** The pipes only shorten: the worker has received some of what was written, and the
      authority some of the worker's greeting and answers. */
  ghost predicate Connected(phone: KdeConnectPhone, worker: Worker, hello: RawLine)
    reads phone, worker
  {
    && phone.Valid() && worker.Valid() && OneLine(hello)
    && worker.received <= phone.wrote
    && phone.arrived <= Encode([hello]) + worker.Written()
  }

  /** The worker handles the commands in order, and no others. */
  lemma CommandsArriveInOrder(phone: KdeConnectPhone, worker: Worker, hello: RawLine)
    requires Connected(phone, worker, hello)
    ensures worker.handled <= Wire(phone.encoding, phone.commands)
  {
    PartIsNoLine(worker.handled, worker.unread, Wire(phone.encoding, phone.commands), phone.partial);
  }

  /** The lines the authority has taken are the greeting and the first answers. */
  lemma RepliesArriveInOrder(phone: KdeConnectPhone, worker: Worker, hello: RawLine)
    requires Connected(phone, worker, hello) && phone.open
    ensures phone.replies <= [hello] + worker.answered
  {
    EncodeAppend([hello], worker.answered);
    assert Encode([hello]) + worker.Written() == Encode([hello] + worker.answered) + worker.tail;
    PartIsNoLine(phone.replies, phone.input, [hello] + worker.answered, worker.tail);
  }

  /** While the transport is open, the n-th value that `_rpc` has returned is the worker's
      answer to the n-th command, in every run with timeouts, errors and any chunking. */
  lemma RepliesCorrespond(phone: KdeConnectPhone, worker: Worker, hello: RawLine, n: nat)
    requires Connected(phone, worker, hello) && phone.open
    requires n < |phone.commands|
    ensures n < |worker.handled| && worker.handled[n] == phone.encoding.command(phone.commands[n])
    ensures n < |worker.answered| && n + 1 < |phone.replies| && phone.replies[n + 1] == worker.answered[n]
  {
    RepliesArriveInOrder(phone, worker, hello);
    CommandsArriveInOrder(phone, worker, hello);
    assert phone.replies[n + 1] == ([hello] + worker.answered)[n + 1];
    assert worker.handled[n] == Wire(phone.encoding, phone.commands)[n];
  }

  /** Whatever line the worker reads as a mail, it is the transport's one request or carries
      it, byte for byte. */
  lemma MailCarriesTheRequest(phone: KdeConnectPhone, worker: Worker, hello: RawLine, n: nat, mail: Mail)
    requires Connected(phone, worker, hello)
    requires n < |worker.handled| && worker.handled[n] == phone.encoding.command(SendCommand(mail))
    ensures phone.requestId == Some(mail.id)
    ensures phone.request == Some(if mail.RequestMail? then mail.value else mail.request)
  {
    CommandsArriveInOrder(phone, worker, hello);
    assert worker.handled[n] == Wire(phone.encoding, phone.commands)[n];
    assert phone.commands[n] == SendCommand(mail);
    assert Carries(phone.commands[n], phone.requestId, phone.request);
  }

  /** At most one of the lines the worker handles is a request. */
  lemma OneRequestArrives(phone: KdeConnectPhone, worker: Worker, hello: RawLine, i: nat, j: nat, a: Mail, b: Mail)
    requires Connected(phone, worker, hello) && a.RequestMail? && b.RequestMail? && i < j < |worker.handled|
    requires worker.handled[i] == phone.encoding.command(SendCommand(a))
    ensures worker.handled[j] != phone.encoding.command(SendCommand(b))
  {
    CommandsArriveInOrder(phone, worker, hello);
    assert worker.handled[i] == Wire(phone.encoding, phone.commands)[i];
    assert worker.handled[j] == Wire(phone.encoding, phone.commands)[j];
    assert SendsRequest(phone.commands[i]);
  }
}
