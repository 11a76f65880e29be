/** Vocabulary shared by the desktop, the authority and the phone. JSON documents
    are values, byte strings are compared as the values they encode, and request
    identifiers, UUIDs and keys are numbers. */
module Protocol {
  import opened TextChecks

  datatype Option<+T> = None | Some(value: T)

  /** A line the desktop writes to one helper, with the UUID it carries. */
  datatype Line = StartLine(id: nat) | CommitLine(id: nat) | CancelLine(id: nat)

  /** A line one helper writes to the desktop. `pid` is what JSON calls a number. */
  datatype ReplyEvent =
    | ReadyReply
    | CanceledReply
    | ExecutedReply(pid: Option<real>)
    | ErrorReply(hasMessage: bool, uncertain: bool)
    | UnknownReply

  datatype Reply = Garbage | Reply(id: nat, event: ReplyEvent)

  /** An environment variable's name. */
  datatype Variable =
    | Path | Home | User | LogName | Lang | KdesuUser
    | Display | WaylandDisplay | BusAddress | RuntimeDirectory | XAuthority
    | Other(name: string)

  /** The working directory the authority holds open. */
  datatype Directory = Directory(path: Text, device: nat, inode: nat)

  datatype Execution = Execution(argv: seq<Text>, uid: int, gid: int, cwd: Directory, environment: map<Variable, Text>)

  /** The signed request. Two payloads have the same bytes exactly when they are equal. */
  datatype Payload = Payload(
    machine: nat,
    phoneKey: nat,
    requestId: nat,
    authenticate: bool,
    desktopId: nat,
    application: Text,
    command: Text,
    issued: int,
    expires: int,
    kdeRoute: bool,
    execution: Option<Execution>)

  /** The text a string literal of the source stands for. */
  function Ascii(s: string): Text {
    seq(|s|, i requires 0 <= i < |s| => s[i] as int)
  }

  const SHELL: Text := Ascii("/bin/sh")
  const DASH_C: Text := Ascii("-c")

  function Argv(command: Text): seq<Text> {
    [SHELL, DASH_C, command]
  }
}
