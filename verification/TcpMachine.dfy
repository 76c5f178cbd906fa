/** What the TCP handler and the event loop around it do, as functions on values. */
module TcpMachine {
  import opened Octets
  import opened Grammar
  import opened Session
  import opened Common
  import opened TcpText
  import opened Framing

  const BAD_MSG_FORM := "Invalid message format"
  const BAD_MSG_STATE := "You cannot send messages at this state"
  const BAD_REPLY_FORM := "Invalid reply format"
  const BAD_REPLY_STATE := "You cannot send replies at this state"
  const BAD_ERR_FORM := "Invalid error message"
  const BAD_ERR_STATE := "You cannot send errors at this state"
  const BAD_BYE_STATE := "You cannot send BYE at this state"

  datatype Sent = Sent(kind: Kind, text: Text)

  datatype Line =
    | FromPeer(name: Text, text: Text)
    | FromPeerError(name: Text, text: Text)
    | Answered(positive: bool, text: Text)
    | Internal(text: Text)
    | Help

  /** `heard` is everything received so far, `delivered` the frames handed on. */
  datatype Tcp = Tcp(
    fsm: Fsm, name: Text, waitReply: bool, buffer: Text,
    heard: Text, delivered: seq<Text>, sent: seq<Sent>, verdicts: seq<Verdict>, shown: seq<Line>)

  const BOOT := Tcp(FRESH, [], false, [], [], [], [], [], [])

  type Answer = (Tcp, ClientState)

  function Consult(t: Tcp, a: Action): (Tcp, Reaction) {
    var (f, r) := Step(t.fsm, a);
    (t.(fsm := f, verdicts := t.verdicts + [Verdict(|t.sent|, a, r)]), r)
  }

  function Say(t: Tcp, kind: Kind, text: Text): Tcp {
    t.(sent := t.sent + [Sent(kind, text)])
  }

  function Show(t: Tcp, line: Line): Tcp {
    t.(shown := t.shown + [line])
  }

  function Part(t: Tcp): Answer {
    (Say(t, Farewell, BYE_LINE + CRLF), Closed)
  }

  /** ERR, BYE, over. */
  function Abort(t: Tcp, name: Text, text: Text): Answer {
    Part(Say(t, Failure, ErrLine(name, text) + CRLF))
  }

  /** What only `recv` and the cutting of frames may change. */
  predicate SameStream(t: Tcp, v: Tcp) {
    v.buffer == t.buffer && v.delivered == t.delivered && v.heard == t.heard
  }

  // ------------------------------------------------------------------------ from the server

  function OnChat(t: Tcp, frame: Text): (answer: Answer)
    ensures SameStream(t, answer.0)
  {
    var (v, r) := Consult(t, MessageServer);
    match r
    case Allow =>
      var reading := ReadMsg(t.name, frame);
      if reading.ok then
        (Show(v, FromPeer(reading.name, reading.text)), if t.waitReply then WaitingForReply else ReadyForInput)
      else Abort(v, reading.name, BAD_MSG_FORM)
    case Fail => Abort(v, [], BAD_MSG_STATE)
    case _ => (v, ReadyForInput)
  }

  function OnReply(t: Tcp, positive: bool, frame: Text): (answer: Answer)
    ensures SameStream(t, answer.0)
  {
    var (v, r) := Consult(t, if positive then ReplyServer else NReplyServer);
    match r
    case Allow => (
      match ReadReply(frame)
      case Broken => (v, Indeterminate)
      case Reading(text, _, ok) =>
        if !ok then Abort(v, t.name, BAD_REPLY_FORM)
        else if t.waitReply then (Show(v, Answered(positive, text)).(waitReply := false), ReadyForInput)
        else (v, ReadyForInput))
    case Fail => Abort(v, t.name, BAD_REPLY_STATE)
    case _ => (v, Indeterminate)
  }

  function OnError(t: Tcp, frame: Text): (answer: Answer)
    ensures SameStream(t, answer.0)
  {
    var (v, r) := Consult(t, ErrorServer);
    match r
    case Allow =>
      var reading := ReadErr(frame);
      if reading.ok then Part(Show(v, FromPeerError(reading.name, reading.text)))
      else Abort(v, t.name, BAD_ERR_FORM)
    case Fail => Abort(v, t.name, BAD_ERR_STATE)
    case _ => (v, Indeterminate)
  }

  function OnBye(t: Tcp): (answer: Answer)
    ensures SameStream(t, answer.0)
  {
    var (v, r) := Consult(t, ByeServer);
    match r
    case Allow => (v, Closed)
    case Fail => Abort(v, t.name, BAD_BYE_STATE)
    case _ => (v, Indeterminate)
  }

  function Received(t: Tcp, frame: Text): (answer: Answer)
    ensures SameStream(t, answer.0)
  {
    var parts := Split(frame, SP);
    var command := ToUpper(parts[0]);
    var status := if |parts| > 1 then ToUpper(parts[1]) else [];
    if command == "MSG" then OnChat(t, frame)
    else if command == "REPLY" then
      if status == "OK" then OnReply(t, true, frame)
      else if status == "NOK" then OnReply(t, false, frame)
      else (t, Indeterminate)
    else if command == "ERR" then OnError(t, frame)
    else if command == "BYE" then OnBye(t)
    else Abort(Show(t, Internal(BAD_COMMAND)), t.name, BAD_COMMAND)
  }

  /** Take the frame in front off the buffer. */
  function Taken(t: Tcp): Tcp
    requires HasFrame(t.buffer)
  {
    t.(buffer := Rest(t.buffer), delivered := t.delivered + [Head(t.buffer)])
  }

  /** What a frame answered by no value leaves behind: anything, and for each frame anew. */
  type Strays = nat -> ClientState

  /** Hand frames on until one is answered by anything but READY_FOR_INPUT; `k` of this chunk's
      have been handed on already. */
  function Drain(t: Tcp, strays: Strays, k: nat): Answer
    decreases |t.buffer|
  {
    if !HasFrame(t.buffer) then (t, ReadyForInput)
    else
      var (v, r) := Received(Taken(t), Head(t.buffer));
      var state := Settle(r, strays(k));
      if state != ReadyForInput then (v, state) else Drain(v, strays, k + 1)
  }

  function Buffered(t: Tcp, chunk: Text): Tcp {
    t.(buffer := t.buffer + chunk, heard := t.heard + chunk)
  }

  /** One successful `recv`. */
  function Feed(t: Tcp, chunk: Text, strays: Strays): Answer {
    Drain(Buffered(t, chunk), strays, 0)
  }

  // -------------------------------------------------------------------------- from the user

  function Tell(t: Tcp, text: Text): Answer {
    (Show(t, Internal(text)), ReadyForInput)
  }

  function OnAuth(t: Tcp, argument: Text): (answer: Answer)
    ensures SameStream(t, answer.0)
  {
    var (v, r) := Consult(t, AuthorizeUser);
    match r
    case Allow =>
      var parts := Split(argument, SP);
      if ValidCredentials(parts) then
        (Say(v, Authorize, AuthLine(parts[0], parts[2], parts[1]) + CRLF).(name := parts[2], waitReply := true),
         WaitingForReply)
      else Tell(v, AuthComplaint(parts))
    case Warn => Tell(v, NO_AUTH)
    case _ => (v, Indeterminate)
  }

  function OnJoin(t: Tcp, argument: Text): (answer: Answer)
    ensures SameStream(t, answer.0)
  {
    var (v, r) := Consult(t, JoinUser);
    match r
    case Allow =>
      if ValidChannel(Split(argument, SP)) then
        (Say(v, JoinChannel, JoinLine(argument, t.name) + CRLF).(waitReply := true), WaitingForReply)
      else Tell(v, JoinComplaint(Split(argument, SP)))
    case Warn => Tell(v, NO_JOIN)
    case _ => (v, Indeterminate)
  }

  function OnText(t: Tcp, line: Text): (answer: Answer)
    ensures SameStream(t, answer.0)
  {
    if |line| > 0 && line[0] == '/' then Tell(t, BAD_COMMAND)
    else
      var (v, r) := Consult(t, MessageUser);
      match r
      case Allow =>
        if ValidContent(line) then (Say(v, Chat, MsgLine(t.name, line) + CRLF), ReadyForInput)
        else Tell(v, BAD_TEXT)
      case Warn => Tell(v, NO_MSG)
      case _ => (v, ReadyForInput)
  }

  function UserStep(t: Tcp, line: Text): (answer: Answer)
    ensures SameStream(t, answer.0)
  {
    if line == "/exit" then Part(t)
    else
      var command, argument := ToUpper(Command(line)), Argument(line);
      if command == "/AUTH" then OnAuth(t, argument)
      else if command == "/JOIN" then OnJoin(t, argument)
      else if command == "/RENAME" then
        if ValidName(argument) then (t.(name := argument), Indeterminate) else Tell(t, BAD_NAME)
      else if command == "/HELP" then (Show(t, Help), ReadyForInput)
      else OnText(t, line)
  }

  // ------------------------------------------------------------------------------ the loop

  datatype Event =
    | Chunk(bytes: Text, strays: Strays)
    | Hangup
    | Timeout
    | FromUser(line: Text, stray: ClientState)
    | EndOfInput
    | Interrupt

  datatype Client = Client(tcp: Tcp, state: ClientState, retry: nat, max: nat, armed: bool)

  function Launch(max: nat): Client {
    Client(BOOT, ReadyForInput, max, max, true)
  }

  function FromSocket(c: Client, r: ClientState): Client {
    c.(state := r, retry := if r != WaitingForConfirmation then c.max else c.retry)
  }

  /** The same loop as for UDP; here a retransmission does nothing. */
  function Tock(c: Client, e: Event): Client {
    if c.state == Closed then c
    else match e
      case Interrupt =>
        if !c.armed then c
        else
          var (t, r) := UserStep(c.tcp, "/exit");
          c.(tcp := t, state := r, armed := false)
      case Timeout =>
        if c.state != WaitingForConfirmation then c
        else if c.retry > 0 then c.(retry := c.retry - 1)
        else c.(state := Closed)
      case Chunk(bytes, strays) =>
        if |bytes| == 0 then c
        else
          var (t, r) := Feed(c.tcp, bytes, strays);
          FromSocket(c.(tcp := t), r)
      case Hangup => FromSocket(c, Closed)
      case FromUser(line, stray) =>
        if !Listening(c.state) || |line| == 0 then c
        else
          var (t, r) := UserStep(c.tcp, line);
          c.(tcp := t, state := Settle(r, stray))
      case EndOfInput =>
        if !Listening(c.state) then c
        else
          var (t, r) := UserStep(c.tcp, "/exit");
          c.(tcp := t, state := r)
  }

  function Run(c: Client, events: seq<Event>): Client {
    if |events| == 0 then c
    else Tock(Run(c, events[..|events| - 1]), events[|events| - 1])
  }
}
