/** The two private pipes between a client and its helper, from bytes up to the lines and
    replies that the composed state is about: what the pipes let through is what
    `MayHappen` and `MayBeHeard` allow. */
module HelperPipes {
  import opened Protocol
  import opened Framing
  import opened LanFrames
  import A = AuthoritySteps
  import R = AuthorityRuns
  import U = AuthorityDuties
  import C = ClientSteps
  import D = DialogSteps
  import S = ExecutionSteps
  import X = ExecutionProofs

  /** The JSON of a reply, and what the client makes of any line. */
  datatype ReplyCodec = ReplyCodec(encode: (nat, ReplyEvent) -> RawLine, decode: RawLine -> Reply)

  /** The JSON of a line, and what the authority makes of any line. */
  datatype LineCodec = LineCodec(encode: Line -> RawLine, decode: RawLine -> A.DesktopLine)

  /** JSON round trips and has no newline. */
  ghost predicate FaithfulReplies(codec: ReplyCodec) {
    forall id, event :: U.Sendable(event) ==>
      OneLine(codec.encode(id, event)) && codec.decode(codec.encode(id, event)) == Reply(id, event)
  }

  ghost predicate FaithfulLines(codec: LineCodec, wish: A.Wish) {
    forall line :: OneLine(codec.encode(line)) && codec.decode(codec.encode(line)) == S.Arrives(wish, line)
  }

  // ----- from the helper to its client -----

  /** The pipe has been given exactly these replies, under this UUID. */
  ghost predicate Given(codec: ReplyCodec, writer: PipeWriter, id: Option<nat>, out: seq<ReplyEvent>)
    reads writer
  {
    && writer.Valid() && writer.Lined()
    && (out != [] ==> id.Some?)
    && |writer.lines| == |out|
    && forall i :: 0 <= i < |out| ==> U.Sendable(out[i]) && writer.lines[i] == codec.encode(id.value, out[i])
  }

  ghost predicate Wired(codec: ReplyCodec, writer: PipeWriter, h: A.Helper)
    reads writer
  {
    && Given(codec, writer, h.desktopId, h.out)
    && writer.closing == h.closing
    && (h.phase.Booting? || h.phase.AwaitStart? ==> h.out == [])
  }

  /** `send`, for a reply of the helper `h`. */
  method Give(codec: ReplyCodec, writer: PipeWriter, h: A.Helper, reply: ReplyEvent, schedule: seq<Kernel>) returns (output: A.Output)
    requires FaithfulReplies(codec) && Wired(codec, writer, h) && U.Sendable(reply) && h.desktopId.Some?
    modifies writer
    ensures Given(codec, writer, h.desktopId, A.Send(h, reply, output).out)
    ensures writer.closing == A.Send(h, reply, output).closing && old(writer.delivered) <= writer.delivered
  {
    var written, drained := writer.Send(codec.encode(h.desktopId.value, reply), schedule);
    output := A.Output(written, drained, writer.closing);
  }

  lemma StaysWired(codec: ReplyCodec, writer: PipeWriter, h: A.Helper, g: A.Helper, reply: Option<ReplyEvent>, output: A.Output)
    requires U.Follows(h, g, reply, output) && (reply.Some? ==> !h.phase.Booting? && !h.phase.AwaitStart?)
    requires h.phase.Booting? || h.phase.AwaitStart? ==> h.out == []
    requires Given(codec, writer, h.desktopId, if reply.Some? then A.Send(h, reply.value, output).out else h.out)
    requires writer.closing == if reply.Some? then A.Send(h, reply.value, output).closing else h.closing
    ensures Wired(codec, writer, g)
  {
  }

  /** One step of a helper with its real pipe is a step of the model, and what the pipe was
      given stays what the model says the helper has written. */
  method Advance(codec: ReplyCodec, writer: PipeWriter, k: nat, h: A.Helper, w: A.World, e: A.Event, schedule: seq<Kernel>)
    returns (output: A.Output)
    requires FaithfulReplies(codec) && Wired(codec, writer, h) && R.Sound(h) && !e.OutputBroken?
    modifies writer
    ensures Wired(codec, writer, A.Step(k, h, w, U.Through(e, output)).helper)
    ensures old(writer.delivered) <= writer.delivered
  {
    output := A.Output(false, false, false);
    var reply := U.Says(h, w, e);
    if reply.Some? {
      U.ReplyHasName(k, h, w, e);
      output := Give(codec, writer, h, reply.value, schedule);
    }
    U.StepLeads(k, h, w, e, output);
    StaysWired(codec, writer, h, A.Step(k, h, w, U.Through(e, output)).helper, reply, output);
  }

  /** What the client has parsed are the helper's replies, in order, whatever the splits. */
  lemma ParsedAreReplies(codec: ReplyCodec, writer: PipeWriter, reader: ReplyReader, h: A.Helper, i: nat)
    requires FaithfulReplies(codec) && Wired(codec, writer, h)
    requires reader.Valid() && reader.consumed <= writer.delivered && i < |reader.parsed|
    ensures i < |h.out| && h.desktopId.Some? && codec.decode(reader.parsed[i]) == Reply(h.desktopId.value, h.out[i])
    ensures S.MayHear(h, codec.decode(reader.parsed[i]))
  {
    PipeIsFifo(writer, reader);
    assert reader.parsed[i] == writer.lines[i];
  }

  /** The composed dialog meets exactly such replies. */
  lemma ReplyMayBeHeard(codec: ReplyCodec, writer: PipeWriter, reader: ReplyReader, s: S.Scene, i: nat)
    requires s.mine != [] && s.mine[|s.mine| - 1] < |s.auth.helpers|
    requires FaithfulReplies(codec) && Wired(codec, writer, s.auth.helpers[s.mine[|s.mine| - 1]])
    requires reader.Valid() && reader.consumed <= writer.delivered && i < |reader.parsed|
    ensures S.MayBeHeard(s, D.ClientEvent(C.ReplyLine(codec.decode(reader.parsed[i]))))
  {
    ParsedAreReplies(codec, writer, reader, s.auth.helpers[s.mine[|s.mine| - 1]], i);
  }

  /** The same after a failure, but for the first line, of which a part may be missing. */
  lemma RestartedHearsReplies(codec: ReplyCodec, writer: PipeWriter, reader: ReplyReader, h: A.Helper, skipped: nat, i: nat)
    requires FaithfulReplies(codec) && Wired(codec, writer, h) && reader.Valid()
    requires skipped < |writer.delivered| && reader.consumed <= writer.delivered[skipped..] && 0 < i < |reader.parsed|
    ensures S.MayHear(h, codec.decode(reader.parsed[i]))
  {
    var j, k := RestartedIsFifo(writer, reader, skipped);
    assert reader.parsed[i] == ([writer.lines[j][k..]] + writer.lines[j + 1..])[i] == writer.lines[j + i];
  }

  // ----- from the client to its helper -----

  function Encoded(codec: LineCodec, sent: seq<Line>): (lines: seq<RawLine>)
    ensures |lines| == |sent| && forall i :: 0 <= i < |sent| ==> lines[i] == codec.encode(sent[i])
  {
    seq(|sent|, i requires 0 <= i < |sent| => codec.encode(sent[i]))
  }

  /** What `read_event` makes of the head of its input. */
  function Heard(codec: LineCodec, input: seq<Byte>): A.DesktopLine {
    match Frame(input, START_LIMIT)
    case None => A.Unreadable
    case Some(line) => codec.decode(line)
  }

  /** What one `read_event` leaves to the next. */
  function Rest(input: seq<Byte>): seq<Byte> {
    if Complete(input) then Tail(input) else []
  }

  lemma FirstOfPrefix(input: seq<Byte>, lines: seq<RawLine>)
    requires AllOneLine(lines) && Complete(input) && input <= Encode(lines)
    ensures lines != [] && Head(input) == lines[0] && Tail(input) <= Encode(lines[1..])
  {
    Partition(input);
    SameFirstLine(Head(input), Tail(input), lines);
  }

  /** A line read from a cut stream is the first one sent, or cannot be read. */
  lemma HeardIsFirst(codec: LineCodec, wish: A.Wish, sent: seq<Line>, input: seq<Byte>)
    requires FaithfulLines(codec, wish) && input <= Encode(Encoded(codec, sent))
    ensures Heard(codec, input).Unreadable? || (sent != [] && Heard(codec, input) == S.Arrives(wish, sent[0]))
    ensures sent != [] ==> Rest(input) <= Encode(Encoded(codec, sent[1..]))
    ensures sent == [] ==> Rest(input) == []
  {
    var lines := Encoded(codec, sent);
    if Complete(input) {
      FirstOfPrefix(input, lines);
      assert lines[1..] == Encoded(codec, sent[1..]);
    }
  }

  /** Whatever part of the client's output has arrived, the two reads of a helper are such
      as the composed state lets happen. */
  lemma InputIsTheClients(codec: LineCodec, wish: A.Wish, sent: seq<Line>, input: seq<Byte>)
    requires FaithfulLines(codec, wish) && input <= Encode(Encoded(codec, sent))
    ensures S.MayRead(wish, sent, A.StartRead(Heard(codec, input)))
    ensures S.MayRead(wish, sent, A.WatcherRead(Heard(codec, Rest(input))))
  {
    HeardIsFirst(codec, wish, sent, input);
    if sent != [] {
      HeardIsFirst(codec, wish, sent[1..], Rest(input));
    }
  }

  /** The lines fit, all of them have arrived, and they are what the helper reads. */
  lemma WholeInputIsHeard(codec: LineCodec, wish: A.Wish, sent: seq<Line>)
    requires FaithfulLines(codec, wish) && sent != []
    ensures var input := Encode(Encoded(codec, sent));
            && Heard(codec, input) == (if |codec.encode(sent[0])| < START_LIMIT then S.Arrives(wish, sent[0]) else A.Unreadable)
            && Rest(input) == Encode(Encoded(codec, sent[1..]))
  {
    var lines := Encoded(codec, sent);
    assert lines[1..] == Encoded(codec, sent[1..]);
    FramesRoundTrip(lines[0], Encode(lines[1..]), START_LIMIT);
    assert Encode(lines) == lines[0] + [NEWLINE] + Encode(lines[1..]);
    IndexIsFirst(Encode(lines), |lines[0]|);
    FirstOfPrefix(Encode(lines), lines);
  }

  /** The same in the composed state, for the helper behind the client's process `p`. */
  lemma ReadMayHappen(codec: LineCodec, s: S.Scene, p: nat, input: seq<Byte>)
    requires X.Linked(s.wish, s.auth.helpers, s.mine, C.Processes(s.desk.client)) && p < |s.mine|
    requires FaithfulLines(codec, s.wish) && input <= Encode(Encoded(codec, C.Processes(s.desk.client)[p].sent))
    ensures S.MayHappen(s, R.HelperEvent(s.mine[p], A.StartRead(Heard(codec, input))))
    ensures S.MayHappen(s, R.HelperEvent(s.mine[p], A.WatcherRead(Heard(codec, Rest(input)))))
  {
    InputIsTheClients(codec, s.wish, C.Processes(s.desk.client)[p].sent, input);
    forall q | 0 <= q < |s.mine| && s.mine[q] == s.mine[p]
      ensures q == p
    {
      Distinct(s.mine, p, q);
    }
  }

  lemma Distinct(mine: seq<nat>, p: nat, q: nat)
    requires forall i, j :: 0 <= i < j < |mine| ==> mine[i] < mine[j]
    requires p < |mine| && q < |mine| && mine[p] == mine[q]
    ensures p == q
  {
  }
}
