/** Frames on the LAN connection: `NetworkService.receive`/`send` on the phone, `_read` and
    `_exchange` on the computer; and the sizes of what both transports wrap. */
module LanFrames {
  import opened Protocol
  import opened Framing

  const FRAME_LIMIT: nat := 131072

  /** The longest `start` line, of the client that writes it and the authority that reads it. */
  const START_LIMIT: nat := 65536

  /** The frame at the head of a stream: its first line, if that ends within the limit. */
  function Frame(stream: seq<Byte>, limit: nat): (frame: Option<RawLine>)
    ensures frame.Some? ==> frame.value + [NEWLINE] <= stream && OneLine(frame.value) && |frame.value| < limit
    ensures frame.None? ==> Index(stream) >= limit || !Complete(stream)
  {
    if Complete(stream) && Index(stream) < limit then Some(stream[..Index(stream)]) else None
  }

  /** The counted loop on the phone; the end of the stream is an exception. */
  method ReceiveOnPhone(stream: seq<Byte>) returns (frame: Option<RawLine>)
    ensures frame == Frame(stream, FRAME_LIMIT)
  {
    var bytes: RawLine := [];
    for count := 0 to FRAME_LIMIT
      invariant count <= |stream| && bytes == stream[..count] && count <= Index(stream)
    {
      if count == |stream| {
        return None;
      }
      var next := stream[count];
      if next == NEWLINE {
        IndexIsFirst(stream, count);
        return Some(bytes);
      }
      bytes := bytes + [next];
      assert bytes == stream[..count + 1];
      assert Index(stream) != count;
    }
    return None;
  }

  /** `readline(131073)` on the computer and the two checks after it. */
  method ReceiveOnComputer(stream: seq<Byte>) returns (frame: Option<RawLine>)
    ensures frame == Frame(stream, FRAME_LIMIT)
  {
    var i := 0;
    while i < |stream| && i < FRAME_LIMIT + 1 && (i == 0 || stream[i - 1] != NEWLINE)
      invariant i <= |stream| && i <= FRAME_LIMIT + 1
      invariant forall j :: 0 <= j < i - 1 ==> stream[j] != NEWLINE
    {
      i := i + 1;
    }
    var raw := stream[..i];
    if |raw| > FRAME_LIMIT || raw == [] || raw[|raw| - 1] != NEWLINE {
      return None;
    }
    IndexIsFirst(stream, i - 1);
    assert raw[..i - 1] == stream[..Index(stream)];
    return Some(raw[..i - 1]);
  }

  /** `read_event`: the stream reader gives up when a line's newline lies beyond its limit,
      and the line is then measured with its newline. */
  method ReadEventLine(stream: seq<Byte>) returns (frame: Option<RawLine>)
    ensures frame == Frame(stream, START_LIMIT)
  {
    var newline := Index(stream);
    if newline == |stream| || newline > START_LIMIT {
      return None;
    }
    var raw := stream[..newline + 1];
    if |raw| > START_LIMIT {
      return None;
    }
    assert raw[..newline] == stream[..newline];
    return Some(raw[..newline]);
  }

  /** Whatever a sender that keeps to the limit may send, the other end receives, whole and
      unchanged; one byte more and it is not accepted. */
  lemma FramesRoundTrip(line: RawLine, more: seq<Byte>, limit: nat)
    requires OneLine(line)
    ensures Frame(line + [NEWLINE] + more, limit) == if |line| + 1 <= limit then Some(line) else None
  {
    var stream := line + [NEWLINE] + more;
    assert forall j :: 0 <= j < |line| ==> stream[j] == line[j];
    IndexIsFirst(stream, |line|);
    assert stream[..|line|] == line;
  }

  /** A sent line arrives whole whatever follows it, and a refused one could not have been
      received from any stream. The line is JSON, which has no newline. */
  method SendFromPhone(line: RawLine) returns (frame: Option<seq<Byte>>)
    requires OneLine(line)
    ensures frame.Some? ==> forall more :: Frame(frame.value + more, FRAME_LIMIT) == Some(line)
    ensures frame.None? ==> forall stream :: Frame(stream, FRAME_LIMIT) != Some(line)
  {
    if |line| >= FRAME_LIMIT {
      return None;
    }
    frame := Some(line + [NEWLINE]);
    forall more ensures Frame(frame.value + more, FRAME_LIMIT) == Some(line) {
      FramesRoundTrip(line, more, FRAME_LIMIT);
    }
  }

  /** The same of the computer, which adds the newline first and compares afterwards. */
  method SendFromComputer(line: RawLine) returns (frame: Option<seq<Byte>>)
    requires OneLine(line)
    ensures frame.Some? ==> forall more :: Frame(frame.value + more, FRAME_LIMIT) == Some(line)
    ensures frame.None? ==> forall stream :: Frame(stream, FRAME_LIMIT) != Some(line)
  {
    var raw := line + [NEWLINE];
    if |raw| > FRAME_LIMIT {
      return None;
    }
    frame := Some(raw);
    forall more ensures Frame(raw + more, FRAME_LIMIT) == Some(line) {
      FramesRoundTrip(line, more, FRAME_LIMIT);
    }
  }

  // ----- sizes -----

  const VALUE_LIMIT: nat := 65536
  const RPC_PAYLOAD_LIMIT: nat := 98304

  /** base64 with padding (section 4 of RFC 4648). */
  function Base64Length(bytes: nat): nat {
    (bytes + 2) / 3 * 4
  }

  /** A quoted string without characters that need escaping. */
  function Quoted(length: nat): nat {
    length + 2
  }

  /** `"key":value` and a comma or the closing brace. */
  function Field(key: string, value: nat): nat {
    |key| + 3 + value + 1
  }

  /** The RPC's payload as compact JSON: `operation` and `name` are strings, `value` is JSON. */
  function RpcPayloadLength(operation: nat, name: nat, value: nat): nat {
    1 + Field("domain", Quoted(28)) + Field("kind", Quoted(|"network-rpc"|)) + Field("machine_id", Quoted(64))
      + Field("name", Quoted(name)) + Field("operation", Quoted(operation)) + Field("phone_key_id", Quoted(64))
      + Field("request_id", Quoted(32)) + Field("server_nonce", Quoted(44)) + Field("value", value)
  }

  function EnvelopeLength(payload: nat, signature: nat): nat {
    1 + Field("payload_b64", Quoted(Base64Length(payload))) + Field("signature_b64", Quoted(Base64Length(signature)))
  }

  /** The worker command that carries one mail of `mail` bytes. */
  function SendCommandLength(filename: nat, mail: nat): nat {
    1 + Field("operation", Quoted(|"send"|)) + Field("filename", Quoted(filename))
      + Field("data_b64", Quoted(Base64Length(mail))) + Field("request_id", Quoted(32))
  }

  lemma Base64Grows(a: nat, b: nat)
    requires a <= b
    ensures Base64Length(a) <= Base64Length(b)
    ensures 3 * Base64Length(a) <= 4 * (a + 2)
  {
  }

  /** A value within its limit closes the chain over LAN: the payload is within the phone's
      RPC limit and the frame within what both ends take. An ECDSA P-256 signature has at
      most 72 bytes, the longest operation is "write" and the longest name "response.json". */
  lemma LanSizesClose(operation: nat, name: nat, value: nat, signature: nat)
    requires operation <= |"write"| && name <= |"response.json"| && value <= VALUE_LIMIT && signature <= 72
    ensures RpcPayloadLength(operation, name, value) <= RPC_PAYLOAD_LIMIT
    ensures EnvelopeLength(RpcPayloadLength(operation, name, value), signature) + 1 <= FRAME_LIMIT
  {
    Base64Grows(RpcPayloadLength(operation, name, value), 66000);
    Base64Grows(signature, 72);
  }

  /** A mail within its limit makes a worker command within the worker's limit. */
  lemma MailSizesClose(filename: nat, mail: nat)
    requires filename <= |"navi-auth-request-.json"| + 32 && mail <= VALUE_LIMIT
    ensures SendCommandLength(filename, mail) + 1 <= FRAME_LIMIT
  {
    Base64Grows(mail, VALUE_LIMIT);
  }
}
