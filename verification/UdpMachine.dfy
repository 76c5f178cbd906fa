/** What the UDP handler and the event loop around it do, as functions on values. The handler's
    outgoing traffic and everything it prints are kept as append-only histories. */
module UdpMachine {
  import opened Octets
  import opened Grammar
  import opened UdpRecords
  import opened Session
  import opened Common

  // ---------------------------------------------------------------------------- the wording

  const POSITIVE: Octet := 1 as char
  const NEGATIVE: Octet := '\0'

  const SHORT_REPLY := "Unexpected reply message format"
  const SHORT_MSG := "Unexpected message format"
  const SHORT_ERR := "Unexpected error message format"
  const SHORT_BYE := "Unexpected bye message format"
  const BAD_FORMAT := "Unexpected format"
  const BAD_REPLY_CONTENT := "Invalid content in reply message"
  const BAD_REPLY_STATUS := "Invalid reply message format"
  const BAD_REPLY_STATE := "Invalid state for positive reply message"
  const BAD_NREPLY_STATE := "Invalid state for negative reply message"
  const BAD_MSG_CONTENT := "Invalid content in message"
  const BAD_MSG_STATE := "Invalid state for message message"
  const BAD_ERR_CONTENT := "Invalid content in error message"
  const BAD_ERR_STATE := "Invalid state for error message"

  // --------------------------------------------------------------------- the stop-and-wait link

  function Code(kind: Kind): Octet {
    match kind
    case Authorize => AUTH
    case JoinChannel => JOIN
    case Chat => MSG
    case Failure => ERR
    case Farewell => BYE
  }

  /** A datagram sent for the first time under an identifier of its own. */
  datatype Original = Original(kind: Kind, id: MsgId, data: Text)

  /** A retransmission or an incoming CONFIRM, stamped with the number of originals sent before. */
  datatype Tick = Again(after: nat, data: Text) | Confirmed(after: nat, id: MsgId)

  datatype Link = Link(
    next: MsgId, awaited: MsgId, last: Text,
    waiting: bool, errorSent: bool, awaitingOver: bool, errorPending: bool, errorText: Text,
    sent: seq<Original>, ticks: seq<Tick>)

  const IDLE := Link(0, 0, [], false, false, false, false, [], [], [])

  function Originate(l: Link, kind: Kind, data: Text): Link {
    l.(sent := l.sent + [Original(kind, l.next, data)],
       last := data, awaited := l.next, next := Succ(l.next))
  }

  /** AUTH, JOIN and MSG: send and wait. */
  function Ask(l: Link, kind: Kind, fields: seq<Text>): Link {
    Originate(l, kind, Record(Code(kind), l.next, fields)).(waiting := true)
  }

  /** ERR: send and wait, or put it off while another confirmation is outstanding. */
  function Complain(l: Link, name: Text, text: Text): Link {
    if l.waiting then l.(errorText := text, errorPending := true)
    else Ask(l, Failure, [name, text]).(errorSent := true)
  }

  /** BYE: send, and close as soon as it is confirmed. */
  function Leave(l: Link): Link {
    Originate(l, Farewell, Record(BYE, l.next, [])).(awaitingOver := true)
  }

  function Resend(l: Link): Link {
    l.(ticks := l.ticks + [Again(|l.sent|, l.last)])
  }

  /** What a CONFIRM means to the link. */
  datatype Outcome = Unmatched | Parting | Apologized | Settled

  function Hear(l: Link, id: MsgId): (Link, Outcome) {
    var heard := l.(ticks := l.ticks + [Confirmed(|l.sent|, id)]);
    if id != l.awaited then (heard, Unmatched)
    else
      var cleared := heard.(awaited := NONE);
      if l.awaitingOver then (cleared.(waiting := false), Parting)
      else if l.errorSent then (Leave(cleared.(errorSent := false)), Apologized)
      else (cleared.(waiting := false), Settled)
  }

  // ----------------------------------------------------------------------------- the handler

  datatype Line =
    | FromPeer(id: MsgId, name: Text, text: Text)
    | FromPeerError(id: MsgId, name: Text, text: Text)
    | Answered(positive: bool, ref: MsgId, text: Text)
    | Internal(text: Text)
    | Help

  /** An outgoing CONFIRM, stamped like a tick. */
  datatype Receipt = Receipt(after: nat, id: MsgId)

  datatype Udp = Udp(
    fsm: Fsm, link: Link, name: Text,
    waitReply: bool, awaitReply: MsgId, received: seq<MsgId>,
    verdicts: seq<Verdict>, receipts: seq<Receipt>, shown: seq<Line>)

  const BOOT := Udp(FRESH, IDLE, [], false, 0, [], [], [], [])

  function Consult(u: Udp, a: Action): (Udp, Reaction) {
    var (f, r) := Step(u.fsm, a);
    (u.(fsm := f, verdicts := u.verdicts + [Verdict(|u.link.sent|, a, r)]), r)
  }

  function Acknowledge(u: Udp, id: MsgId): Udp {
    u.(receipts := u.receipts + [Receipt(|u.link.sent|, id)])
  }

  function Note(u: Udp, id: MsgId): Udp {
    u.(received := u.received + [id])
  }

  function Show(u: Udp, line: Line): Udp {
    u.(shown := u.shown + [line])
  }

  function Protest(u: Udp, text: Text): Udp {
    u.(link := Complain(u.link, u.name, text))
  }

  type Answer = (Udp, ClientState)

  function Objection(u: Udp, text: Text): Answer {
    (Protest(u, text), WaitingForConfirmation)
  }

  function OnConfirm(u: Udp, id: MsgId): Answer {
    var (l, outcome) := Hear(u.link, id);
    var v := u.(link := l);
    match outcome
    case Unmatched => (v, WaitingForConfirmation)
    case Parting => (v, Closed)
    case Apologized => (v, WaitingForConfirmation)
    case Settled =>
      if u.waitReply then (v.(waitReply := false), WaitingForReply) else (v, ReadyForInput)
  }

  function Replied(u: Udp, positive: bool, id: MsgId, ref: MsgId, text: Text): Answer {
    var (v, r) := Consult(u, if positive then ReplyServer else NReplyServer);
    match r
    case Allow =>
      if ref == u.awaitReply then
        (Note(Acknowledge(Show(v, Answered(positive, ref, text)), id), id)
         .(waitReply := false, awaitReply := NONE), ReadyForInput)
      else (Acknowledge(v, id), if positive then ReadyForInput else WaitingForReply)
    case Fail => Objection(Acknowledge(v, id), if positive then BAD_REPLY_STATE else BAD_NREPLY_STATE)
    case _ => (v, Indeterminate)
  }

  function OnReplyRecord(u: Udp, d: Text): Answer {
    if |d| < 6 then Objection(u, SHORT_REPLY)
    else
      var id, status, ref, payload := IdOf(d), d[3], Decode16(d[4], d[5]), d[6..];
      if !Readable(OnReply, payload) then Objection(u, BAD_REPLY_CONTENT)
      else if status == NEGATIVE then Replied(u, false, id, ref, Fields(payload)[0])
      else if status == POSITIVE then Replied(u, true, id, ref, Fields(payload)[0])
      else Objection(Acknowledge(u, id), BAD_REPLY_STATUS)
  }

  function OnMsgRecord(u: Udp, d: Text): Answer {
    if |d| < 3 then Objection(u, SHORT_MSG)
    else
      var payload := d[3..];
      if !Readable(OnMsg, payload) then Objection(u, BAD_MSG_CONTENT)
      else OnChat(u, IdOf(d), Fields(payload)[0], Fields(payload)[1])
  }

  function OnChat(u: Udp, id: MsgId, name: Text, text: Text): Answer {
    var (v, r) := Consult(u, MessageServer);
    if r != Allow then Objection(v, BAD_MSG_STATE)
    else if id in u.received then (Acknowledge(v, id), ReadyForInput)
    else (Show(Note(Acknowledge(v, id), id), FromPeer(id, name, text)), ReadyForInput)
  }

  function OnErrRecord(u: Udp, d: Text): Answer {
    if |d| < 4 then Objection(u, SHORT_ERR)
    else
      var id, payload := IdOf(d), d[3..];
      if !Readable(OnErr, payload) then Objection(Acknowledge(u, id), BAD_ERR_CONTENT)
      else OnServerError(u, id, Fields(payload)[0], Fields(payload)[1])
  }

  function OnServerError(u: Udp, id: MsgId, name: Text, text: Text): Answer {
    var (v, r) := Consult(u, ErrorServer);
    if r == Allow then OnFinalError(v, id, name, text)
    else Objection(Acknowledge(v, id), BAD_ERR_STATE)
  }

  /** A known error is answered with another BYE to wait for, a new one with a BYE in passing. */
  function OnFinalError(u: Udp, id: MsgId, name: Text, text: Text): Answer {
    var v := Acknowledge(u, id);
    var w := v.(link := Leave(v.link));
    if id in u.received then (w.(link := w.link.(waiting := true)), WaitingForConfirmation)
    else (Show(Note(w, id), FromPeerError(id, name, text)), ReadyForInput)
  }

  function OnByeRecord(u: Udp, d: Text): Answer {
    if |d| < 3 then Objection(u, SHORT_BYE)
    else (Acknowledge(Note(u, IdOf(d)), IdOf(d)), Closed)
  }

  function OnOtherRecord(u: Udp, d: Text): Answer {
    if |d| < 3 then Objection(u, BAD_FORMAT)
    else Objection(Acknowledge(u, IdOf(d)), BAD_FORMAT)
  }

  /** The octets the source reads without checking the length are there. */
  type Datagram = d: Text | |d| >= 1 && (d[0] == CONFIRM ==> |d| >= 3) witness "\0\0\0"

  function Received(u: Udp, d: Datagram): Answer {
    if d[0] == CONFIRM then OnConfirm(u, IdOf(d))
    else if d[0] == REPLY then OnReplyRecord(u, d)
    else if d[0] == MSG then OnMsgRecord(u, d)
    else if d[0] == ERR then OnErrRecord(u, d)
    else if d[0] == BYE then OnByeRecord(u, d)
    else OnOtherRecord(u, d)
  }

  function ServerStep(u: Udp, d: Datagram): Answer {
    var (v, r) := Received(u, d);
    (v, if v.link.waiting then WaitingForConfirmation else r)
  }

  // ------------------------------------------------------------------------------ user input

  function Tell(u: Udp, text: Text): Answer {
    (Show(u, Internal(text)), ReadyForInput)
  }

  function OnExit(u: Udp): Answer {
    (u.(link := Leave(u.link).(waiting := true)), WaitingForConfirmation)
  }

  function Requested(u: Udp, kind: Kind, fields: seq<Text>): Answer {
    (u.(link := Ask(u.link, kind, fields), waitReply := true, awaitReply := u.link.next),
     WaitingForConfirmation)
  }

  function OnAuth(u: Udp, argument: Text): Answer {
    var (v, r) := Consult(u, AuthorizeUser);
    match r
    case Allow =>
      var parts := Split(argument, SP);
      if |parts| != 3 then Tell(v, BAD_FORM)
      else if !ValidCredentials(parts) then Tell(v, BAD_AUTH)
      else Requested(v.(name := parts[2]), Authorize, [parts[0], parts[2], parts[1]])
    case Warn => Tell(v, NO_AUTH)
    case _ => (v, Indeterminate)
  }

  function OnJoin(u: Udp, argument: Text): Answer {
    var (v, r) := Consult(u, JoinUser);
    match r
    case Allow =>
      var parts := Split(argument, SP);
      if |parts| != 1 then Tell(v, BAD_FORM)
      else if !ValidId(parts[0]) then Tell(v, BAD_JOIN)
      else Requested(v, JoinChannel, [parts[0], u.name])
    case Warn => Tell(v, NO_JOIN)
    case _ => (v, Indeterminate)
  }

  /** A successful rename runs off the end of the function. */
  function OnRename(u: Udp, argument: Text): Answer {
    if ValidName(argument) then (u.(name := argument), Indeterminate)
    else Tell(u, BAD_NAME)
  }

  function OnText(u: Udp, line: Text): Answer {
    if |line| > 0 && line[0] == '/' then Tell(u, BAD_COMMAND)
    else
      var (v, r) := Consult(u, MessageUser);
      match r
      case Allow =>
        if !ValidContent(line) then Tell(v, BAD_CONTENT)
        else
          (v.(link := Ask(v.link, Chat, [u.name, line]), waitReply := false, awaitReply := NONE),
           WaitingForConfirmation)
      case Warn => Tell(v, NO_MSG)
      case _ => (v, Indeterminate)
  }

  function UserStep(u: Udp, line: Text): Answer {
    if line == "/exit" then OnExit(u)
    else if u.link.errorPending then Objection(u, u.link.errorText)
    else
      var command, argument := ToUpper(Command(line)), Argument(line);
      if command == "/AUTH" then OnAuth(u, argument)
      else if command == "/JOIN" then OnJoin(u, argument)
      else if command == "/RENAME" then OnRename(u, argument)
      else if command == "/HELP" then (Show(u, Help), ReadyForInput)
      else OnText(u, line)
  }

  // ------------------------------------------------------------------------------ the loop

  /** Everything `poll` can report. `stray` is the value the loop finds when `process_user_input`
      returns none. */
  datatype Event =
    | FromServer(d: Datagram)
    | Timeout
    | FromUser(line: Text, stray: ClientState)
    | EndOfInput
    | Interrupt

  datatype Client = Client(udp: Udp, state: ClientState, retry: nat, max: nat, armed: bool)

  function Launch(max: nat): Client {
    Client(BOOT, ReadyForInput, max, max, true)
  }

  function Tock(c: Client, e: Event): Client {
    if c.state == Closed then c
    else match e
      case Interrupt =>
        if !c.armed then c
        else
          var (u, r) := UserStep(c.udp, "/exit");
          c.(udp := u, state := r, armed := false)
      case Timeout =>
        if c.state != WaitingForConfirmation then c
        else if c.retry > 0 then c.(udp := c.udp.(link := Resend(c.udp.link)), retry := c.retry - 1)
        else c.(state := Closed)
      case FromServer(d) =>
        var (u, r) := ServerStep(c.udp, d);
        c.(udp := u, state := r, retry := if r != WaitingForConfirmation then c.max else c.retry)
      case FromUser(line, stray) =>
        if !Listening(c.state) || |line| == 0 then c
        else
          var (u, r) := UserStep(c.udp, line);
          c.(udp := u, state := Settle(r, stray))
      case EndOfInput =>
        if !Listening(c.state) then c
        else
          var (u, r) := UserStep(c.udp, "/exit");
          c.(udp := u, state := r)
  }

  function Run(c: Client, events: seq<Event>): Client {
    if |events| == 0 then c
    else Tock(Run(c, events[..|events| - 1]), events[|events| - 1])
  }
}
