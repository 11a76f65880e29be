/** Byte streams carrying one message per line, and the two ends of the helper's output
    pipe: `PipeWriter` with its partial writes, `readMessages` with its chunked reads. */
module Framing {
  type Byte = b: int | 0 <= b < 256

  type RawLine = seq<Byte>

  const NEWLINE: Byte := 10

  const OUTPUT_LIMIT: nat := 16384
  const REPLY_LIMIT: nat := 16384

  // ----- streams and lines -----

  function Encode(lines: seq<RawLine>): (stream: seq<Byte>) {
    if lines == [] then [] else lines[0] + [NEWLINE] + Encode(lines[1..])
  }

  /** Where the first newline is, or the length if there is none. */
  function Index(s: seq<Byte>): (i: nat)
    ensures i <= |s|
    ensures i < |s| ==> s[i] == NEWLINE
    ensures forall j :: 0 <= j < i ==> s[j] != NEWLINE
  {
    if s == [] || s[0] == NEWLINE then 0 else 1 + Index(s[1..])
  }

  predicate Complete(s: seq<Byte>) {
    Index(s) < |s|
  }

  predicate OneLine(line: RawLine) {
    NEWLINE !in line
  }

  predicate AllOneLine(lines: seq<RawLine>) {
    forall i :: 0 <= i < |lines| ==> OneLine(lines[i])
  }

  lemma {:induction false} EncodeAppend(a: seq<RawLine>, b: seq<RawLine>)
    ensures Encode(a + b) == Encode(a) + Encode(b)
    decreases |a|
  {
    if a == [] {
      assert a + b == b;
    } else {
      assert (a + b)[1..] == a[1..] + b;
      EncodeAppend(a[1..], b);
    }
  }

  lemma EncodeLast(lines: seq<RawLine>, line: RawLine)
    ensures Encode(lines + [line]) == Encode(lines) + line + [NEWLINE]
  {
    EncodeAppend(lines, [line]);
    assert Encode([line]) == line + [NEWLINE];
  }

  /** The first complete line of a buffer, and what comes after its newline. */
  function Head(input: seq<Byte>): RawLine
    requires Complete(input)
  {
    input[..Index(input)]
  }

  function Tail(input: seq<Byte>): seq<Byte>
    requires Complete(input)
  {
    input[Index(input) + 1..]
  }

  lemma Partition(input: seq<Byte>)
    requires Complete(input)
    ensures input == Head(input) + [NEWLINE] + Tail(input) && OneLine(Head(input))
  {
  }

  /** Taking a line out of the buffer keeps the account of the stream. */
  lemma TakeLine(lines: seq<RawLine>, input: seq<Byte>)
    requires Complete(input)
    ensures Encode(lines) + input == Encode(lines + [Head(input)]) + Tail(input)
    ensures OneLine(Head(input))
  {
    Partition(input);
    EncodeLast(lines, Head(input));
    assert Encode(lines) + input == Encode(lines) + Head(input) + [NEWLINE] + Tail(input);
  }

  /** A stream cut anywhere determines the lines completed before the cut. */
  lemma {:induction false} CompletedLinesArePrefix(got: seq<RawLine>, rest: seq<Byte>, sent: seq<RawLine>)
    requires AllOneLine(got) && AllOneLine(sent)
    requires Encode(got) + rest <= Encode(sent)
    ensures got <= sent
    ensures OneLine(rest) && |got| < |sent| ==> rest <= sent[|got|]
    decreases |got|
  {
    if got == [] {
      if OneLine(rest) && sent != [] {
        FirstLine(rest, sent[0], Encode(sent[1..]));
      }
    } else {
      assert Encode(got) + rest == got[0] + [NEWLINE] + (Encode(got[1..]) + rest);
      SameFirstLine(got[0], Encode(got[1..]) + rest, sent);
      assert AllOneLine(got[1..]) && AllOneLine(sent[1..]);
      CompletedLinesArePrefix(got[1..], rest, sent[1..]);
      assert got == [got[0]] + got[1..] && sent == [sent[0]] + sent[1..];
    }
  }

  /** Text without a newline at the start of a line stays within the line. */
  lemma FirstLine(rest: seq<Byte>, line: RawLine, more: seq<Byte>)
    requires OneLine(rest) && rest <= line + [NEWLINE] + more
    ensures rest <= line
  {
    var stream := line + [NEWLINE] + more;
    assert stream[|line|] == NEWLINE;
    assert forall j :: 0 <= j < |rest| ==> stream[j] == rest[j];
    assert |rest| <= |line|;
    assert forall j :: 0 <= j < |line| ==> stream[j] == line[j];
  }

  lemma {:induction false} IndexIsFirst(s: seq<Byte>, i: nat)
    requires i < |s| && s[i] == NEWLINE && forall j :: 0 <= j < i ==> s[j] != NEWLINE
    ensures Index(s) == i
  {
    assert Index(s) >= i;
  }

  lemma SameFirstLine(line: RawLine, tail: seq<Byte>, sent: seq<RawLine>)
    requires OneLine(line) && AllOneLine(sent) && line + [NEWLINE] + tail <= Encode(sent)
    ensures sent != [] && sent[0] == line && tail <= Encode(sent[1..])
  {
    var stream := Encode(sent);
    var prefix := line + [NEWLINE] + tail;
    assert forall j :: 0 <= j < |prefix| ==> stream[j] == prefix[j];
    assert forall j :: 0 <= j < |line| ==> prefix[j] == line[j];
    IndexIsFirst(stream, |line|);
    var first, more := sent[0], Encode(sent[1..]);
    assert stream == first + [NEWLINE] + more;
    assert forall j :: 0 <= j < |first| ==> stream[j] == first[j];
    IndexIsFirst(stream, |first|);
    assert line == prefix[..|line|] == stream[..|line|] == first;
    assert tail == prefix[|line| + 1..];
    assert more == stream[|line| + 1..];
  }

  /** Part of a line at the end of a stream never counts as one. */
  lemma PartIsNoLine(got: seq<RawLine>, rest: seq<Byte>, sent: seq<RawLine>, part: RawLine)
    requires AllOneLine(got) && AllOneLine(sent) && OneLine(part)
    requires Encode(got) + rest <= Encode(sent) + part
    ensures got <= sent
  {
    EncodeLast(sent, part);
    assert AllOneLine(sent + [part]);
    assert Encode(got) + rest <= Encode(sent + [part]);
    CompletedLinesArePrefix(got, rest, sent + [part]);
    assert got == sent + [part] ==> |Encode(got)| > |Encode(sent) + part|;
  }

  // ----- the authority's end -----

  /** What one `os.write` does: some bytes, not now, or an error. A schedule that ends is the
      two-second limit on `drain`, or a cancellation. */
  datatype Kernel = Takes(count: nat) | Blocks | Breaks

  /** How many bytes a schedule takes before it breaks or ends. */
  function Capacity(schedule: seq<Kernel>): (bytes: nat) {
    if schedule == [] || schedule[0].Breaks? then 0
    else (if schedule[0].Takes? then schedule[0].count + 1 else 0) + Capacity(schedule[1..])
  }

  /** The schedule breaks before it has taken `size` bytes. */
  predicate Broken(schedule: seq<Kernel>, size: nat) {
    schedule != [] && size > 0 &&
      match schedule[0]
      case Breaks => true
      case Blocks => Broken(schedule[1..], size)
      case Takes(count) => Broken(schedule[1..], if count + 1 < size then size - count - 1 else 0)
  }

  function Least(a: nat, b: nat): nat {
    if a < b then a else b
  }

  lemma {:induction false} CapacityFrom(schedule: seq<Kernel>, i: nat)
    requires i < |schedule|
    ensures Capacity(schedule[i..]) ==
              if schedule[i].Breaks? then 0 else (if schedule[i].Takes? then schedule[i].count + 1 else 0) + Capacity(schedule[i + 1..])
  {
    assert schedule[i..][1..] == schedule[i + 1..];
  }

  class PipeWriter {
    var pending: seq<Byte>
    var closing: bool
    /** Everything `write` accepted, and everything the kernel took. */
    ghost var accepted: seq<Byte>
    ghost var delivered: seq<Byte>
    /** The messages `send` has handed over. */
    ghost var lines: seq<RawLine>

    ghost predicate Valid()
      reads this
    {
      delivered + pending == accepted && |pending| <= OUTPUT_LIMIT
    }

    /** What was accepted are whole messages, each within the limit. */
    ghost predicate Lined()
      reads this
    {
      accepted == Encode(lines) && AllOneLine(lines) && forall i :: 0 <= i < |lines| ==> |lines[i]| + 1 <= OUTPUT_LIMIT
    }

    constructor ()
      ensures Valid() && Lined() && accepted == [] && !closing
    {
      pending, closing, accepted, delivered, lines := [], false, [], [], [];
    }

    /** `send`: one message and its newline, then `drain`. */
    method Send(line: RawLine, schedule: seq<Kernel>) returns (written: bool, drained: bool)
      requires Valid() && Lined() && OneLine(line)
      modifies this
      ensures Valid() && Lined() && old(delivered) <= delivered
      ensures lines == if written then old(lines) + [line] else old(lines)
      ensures written <==> !old(closing) && |old(pending)| + |line| + 1 <= OUTPUT_LIMIT
      ensures drained <==> written && Capacity(schedule) >= |old(pending)| + |line| + 1
      ensures drained ==> pending == [] && !closing
      ensures written ==> |delivered| == |old(delivered)| + Least(Capacity(schedule), |old(pending)| + |line| + 1)
      ensures !written ==> closing == old(closing)
    {
      drained := false;
      written := Write(line + [NEWLINE]);
      if written {
        EncodeLast(lines, line);
        lines := lines + [line];
        assert accepted == Encode(lines);
        drained := Drain(schedule);
      }
    }

    method Write(data: seq<Byte>) returns (ok: bool)
      requires Valid()
      modifies this`pending, this`accepted
      ensures Valid()
      ensures ok <==> !closing && |old(pending)| + |data| <= OUTPUT_LIMIT
      ensures accepted == if ok then old(accepted) + data else old(accepted)
    {
      if closing || |pending| + |data| > OUTPUT_LIMIT {
        return false;
      }
      pending := pending + data;
      accepted := accepted + data;
      assert delivered + pending == accepted;
      return true;
    }

    method Drain(schedule: seq<Kernel>) returns (ok: bool)
      requires Valid()
      modifies this`pending, this`closing, this`delivered
      ensures Valid() && old(delivered) <= delivered
      ensures ok <==> pending == []
      ensures |delivered| == |old(delivered)| + Least(Capacity(schedule), |old(pending)|)
      ensures ok <==> Capacity(schedule) >= |old(pending)|
      ensures closing != old(closing) ==> closing && !ok
      ensures old(closing) ==> closing
      ensures closing <==> old(closing) || Broken(schedule, |old(pending)|)
    {
      var i := 0;
      assert schedule[0..] == schedule;
      while pending != [] && i < |schedule|
        invariant Valid() && old(delivered) <= delivered && i <= |schedule|
        invariant closing == old(closing)
        invariant |delivered| + Least(Capacity(schedule[i..]), |pending|) == |old(delivered)| + Least(Capacity(schedule), |old(pending)|)
        invariant |delivered| + |pending| == |old(delivered)| + |old(pending)|
        invariant Broken(schedule[i..], |pending|) == Broken(schedule, |old(pending)|)
        decreases |schedule| - i
      {
        CapacityFrom(schedule, i);
        assert schedule[i..][1..] == schedule[i + 1..];
        match schedule[i] {
          case Takes(count) =>
            var written := if count + 1 < |pending| then count + 1 else |pending|;
            assert delivered + pending == delivered + pending[..written] + pending[written..];
            delivered := delivered + pending[..written];
            pending := pending[written..];
          case Blocks =>
          case Breaks =>
            closing := true;
            return false;
        }
        i := i + 1;
      }
      ok := pending == [];
    }
  }

  // ----- the client's end -----

  /** The buffer of `PhoneAuthClient` and what has come through it. */
  class ReplyReader {
    var input: seq<Byte>
    var failed: bool
    ghost var consumed: seq<Byte>
    ghost var parsed: seq<RawLine>
    ghost var unread: seq<Byte>

    ghost predicate Valid()
      reads this
    {
      && consumed == Encode(parsed) + unread && AllOneLine(parsed)
      && (!failed ==> unread == input && OneLine(input) && |input| < REPLY_LIMIT)
    }

    constructor ()
      ensures Valid() && !failed && parsed == [] && consumed == []
    {
      input, failed, consumed, parsed, unread := [], false, [], [], [];
    }

    /** The read at its start, of at most one byte more than a full buffer. */
    method Fill(available: seq<Byte>)
      requires Valid() && !failed
      modifies this`input, this`consumed, this`unread
      ensures consumed == Encode(parsed) + input && unread == input
      ensures old(consumed) <= consumed <= old(consumed) + available
      ensures |available| > 0 ==> |consumed| > |old(consumed)|
      ensures |input| <= REPLY_LIMIT + 1
      ensures consumed == old(consumed) + available[..Least(|available|, REPLY_LIMIT + 1 - |old(input)|)]
    {
      var space := REPLY_LIMIT + 1 - |input|;
      var count := if |available| < space then |available| else space;
      input := input + available[..count];
      consumed := consumed + available[..count];
      unread := input;
      assert consumed == Encode(parsed) + input;
    }

    /** `left` and `remove`: the first line leaves the buffer. */
    method Shift() returns (line: RawLine)
      requires Complete(input) && consumed == Encode(parsed) + input && AllOneLine(parsed)
      modifies this`input, this`parsed, this`unread
      ensures parsed == old(parsed) + [line] && AllOneLine(parsed)
      ensures consumed == Encode(parsed) + input && unread == input && |input| < |old(input)|
    {
      TakeLine(parsed, input);
      line := Head(input);
      input := Tail(input);
      parsed, unread := parsed + [line], input;
    }

    /** The loop over complete lines; the handler is content with `content` of them and stops
        the client at the next one. */
    method Parse(content: nat) returns (lines: seq<RawLine>, oversized: bool)
      requires consumed == Encode(parsed) + input && unread == input && AllOneLine(parsed) && !failed
      modifies this`input, this`parsed, this`unread, this`failed
      ensures consumed == Encode(parsed) + unread && AllOneLine(parsed) && parsed == old(parsed) + lines
      ensures failed <==> oversized || |lines| > content
      ensures oversized ==> |lines| <= content && Index(unread) >= REPLY_LIMIT
      ensures !failed ==> unread == input && OneLine(input)
    {
      lines, oversized := [], false;
      while Complete(input) && !failed
        invariant consumed == Encode(parsed) + unread && AllOneLine(parsed) && parsed == old(parsed) + lines
        invariant !failed ==> unread == input && |lines| <= content
        invariant failed <==> oversized || |lines| > content
        invariant oversized ==> |lines| <= content && Index(unread) >= REPLY_LIMIT
        decreases !failed, |input|
      {
        if Index(input) + 1 > REPLY_LIMIT {
          input, failed, oversized := [], true, true;
        } else {
          var line := Shift();
          lines := lines + [line];
          if |lines| > content {
            input, failed := [], true;
          }
        }
      }
      assert !failed ==> Index(input) == |input|;
    }

    /** `fail` with a live helper empties the buffer; what is read afterwards is a new account
        of the stream, from wherever it is then. */
    method Restart()
      modifies this
      ensures Valid() && !failed && parsed == [] && consumed == []
    {
      input, failed, consumed, parsed, unread := [], false, [], [], [];
    }

    /** One call of `readMessages` that finds `available` in the pipe. */
    method ReadMessages(available: seq<Byte>, content: nat) returns (lines: seq<RawLine>, oversized: bool)
      requires Valid() && !failed
      modifies this
      ensures Valid()
      ensures old(consumed) <= consumed <= old(consumed) + available
      ensures parsed == old(parsed) + lines
      ensures failed <==> oversized || |lines| > content
      ensures oversized ==> Index(unread) >= REPLY_LIMIT
      ensures |available| > 0 ==> |consumed| > |old(consumed)|
    {
      Fill(available);
      lines, oversized := Parse(content);
      if !failed && |input| >= REPLY_LIMIT {
        assert Index(input) == |input|;
        input, failed, oversized := [], true, true;
      }
    }
  }

  // ----- the pipe as a whole -----

  /** What the client has parsed, up to and including its first failure, is a prefix of what
      the authority has sent, for every split into partial writes and chunked reads. */
  lemma PipeIsFifo(writer: PipeWriter, reader: ReplyReader)
    requires writer.Valid() && writer.Lined() && reader.Valid() && reader.consumed <= writer.delivered
    ensures reader.parsed <= writer.lines
  {
    assert writer.delivered <= Encode(writer.lines);
    CompletedLinesArePrefix(reader.parsed, reader.unread, writer.lines);
  }

  /** The client never meets a line that is too long for it: every message the writer
      accepts passes the client's limit. */
  lemma RepliesAreNeverOversized(writer: PipeWriter, reader: ReplyReader)
    requires writer.Valid() && writer.Lined() && reader.Valid() && reader.consumed <= writer.delivered
    ensures Index(reader.unread) < REPLY_LIMIT
  {
    assert writer.delivered <= Encode(writer.lines);
    var head := reader.unread[..Index(reader.unread)];
    assert OneLine(head);
    PrefixTrans(Encode(reader.parsed), head, reader.unread, Encode(writer.lines));
    CompletedLinesArePrefix(reader.parsed, head, writer.lines);
    assert reader.parsed == writer.lines ==> |head| == 0 by {
      assert reader.parsed == writer.lines ==> |Encode(reader.parsed) + head| <= |Encode(writer.lines)|;
    }
  }

  /** What is left of a stream of lines after any number of bytes is again one, which begins
      with the tail of a line. */
  lemma {:induction false} TailIsStream(lines: seq<RawLine>, skipped: nat) returns (j: nat, k: nat)
    requires skipped < |Encode(lines)|
    ensures j < |lines| && k <= |lines[j]|
    ensures Encode(lines)[skipped..] == Encode([lines[j][k..]] + lines[j + 1..])
  {
    var line, rest := lines[0], Encode(lines[1..]);
    if skipped <= |line| {
      j, k := 0, skipped;
      assert ([line[k..]] + lines[1..])[1..] == lines[1..];
      assert (line + [NEWLINE] + rest)[skipped..] == line[k..] + [NEWLINE] + rest;
    } else {
      var n := skipped - |line| - 1;
      j, k := TailIsStream(lines[1..], n);
      j := j + 1;
      assert (line + [NEWLINE] + rest)[skipped..] == rest[n..];
      assert lines[1..][j - 1] == lines[j] && lines[1..][j..] == lines[j + 1..];
    }
  }

  /** After a failure the client parses at most one tail of a line and then whole lines, the
      authority's next ones. */
  lemma RestartedIsFifo(writer: PipeWriter, reader: ReplyReader, skipped: nat) returns (j: nat, k: nat)
    requires writer.Valid() && writer.Lined() && reader.Valid()
    requires skipped < |writer.delivered| && reader.consumed <= writer.delivered[skipped..]
    ensures j < |writer.lines| && k <= |writer.lines[j]|
    ensures reader.parsed <= [writer.lines[j][k..]] + writer.lines[j + 1..]
  {
    var lines := writer.lines;
    j, k := TailIsStream(lines, skipped);
    var left := [lines[j][k..]] + lines[j + 1..];
    assert writer.delivered[skipped..] <= Encode(lines)[skipped..];
    assert AllOneLine(left);
    CompletedLinesArePrefix(reader.parsed, reader.unread, left);
  }

  lemma PrefixTrans(a: seq<Byte>, b: seq<Byte>, c: seq<Byte>, d: seq<Byte>)
    requires b <= c && a + c <= d
    ensures a + b <= d
  {
    assert a + b == (a + c)[..|a| + |b|];
  }
}
