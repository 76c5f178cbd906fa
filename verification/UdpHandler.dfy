/** The UDP handler as the program keeps it, every method tied to the functions of UdpMachine. */
module UdpHandler {
  import opened Octets
  import opened UdpRecords
  import opened Session
  import opened Common
  import opened UdpMachine

  class UDPProtocolHandler {
    const fsm: FSMValidate
    const messageValidator: UDPMessageValidator
    var receivedIds: seq<MsgId>
    var awaitedConfirmId: MsgId
    var awaitedReplyId: MsgId
    var nextId: MsgId
    var waitingForReply: bool
    var lastMessage: Text
    var errorSent: bool
    var awaitingOver: bool
    var waitingForConfirmation: bool
    var errorWhileWaiting: bool
    var errorMessage: Text

    // What has left the handler so far: datagrams to the socket, lines to the terminal.
    ghost var sent: seq<Original>
    ghost var ticks: seq<Tick>
    ghost var verdicts: seq<Verdict>
    ghost var receipts: seq<Receipt>
    ghost var shown: seq<Line>

    ghost function LinkView(): Link
      reads this
    {
      Link(nextId, awaitedConfirmId, lastMessage, waitingForConfirmation, errorSent, awaitingOver,
           errorWhileWaiting, errorMessage, sent, ticks)
    }

    ghost function View(): Udp
      reads this, fsm, messageValidator
    {
      Udp(fsm.View(), LinkView(), messageValidator.displayName, waitingForReply, awaitedReplyId,
          receivedIds, verdicts, receipts, shown)
    }

    constructor ()
      ensures View() == BOOT
      ensures fresh(fsm) && fresh(messageValidator)
    {
      fsm := new FSMValidate();
      messageValidator := new UDPMessageValidator();
      receivedIds, awaitedConfirmId, awaitedReplyId, nextId := [], 0, 0, 0;
      waitingForReply, lastMessage := false, [];
      errorSent, awaitingOver, waitingForConfirmation, errorWhileWaiting := false, false, false, false;
      errorMessage := [];
      sent, ticks, verdicts, receipts, shown := [], [], [], [], [];
    }

    // ------------------------------------------------------------------------ small steps

    method ValidateAction(action: Action) returns (reaction: Reaction)
      modifies this`verdicts, fsm
      ensures (View(), reaction) == Consult(old(View()), action)
    {
      reaction := fsm.ValidateAction(action);
      verdicts := verdicts + [Verdict(|sent|, action, reaction)];
    }

    method SendConfirmation(id: MsgId)
      modifies this`receipts
      ensures View() == Acknowledge(old(View()), id)
    {
      receipts := receipts + [Receipt(|sent|, id)];
    }

    method Output(line: Line)
      modifies this`shown
      ensures View() == Show(old(View()), line)
    {
      shown := shown + [line];
    }

    method PushReceived(id: MsgId)
      modifies this`receivedIds
      ensures View() == Note(old(View()), id)
    {
      receivedIds := receivedIds + [id];
    }

    /** `send_message`, `last_message`, `awaited_conirm_id` and the increment, which every first
        transmission performs together. */
    method SendOriginal(kind: Kind, response: Text)
      modifies this`sent, this`lastMessage, this`awaitedConfirmId, this`nextId
      ensures LinkView() == Originate(old(LinkView()), kind, response)
    {
      sent := sent + [Original(kind, nextId, response)];
      lastMessage := response;
      awaitedConfirmId := nextId;
      nextId := Succ(nextId);
    }

    method SendBye()
      modifies this`sent, this`lastMessage, this`awaitedConfirmId, this`nextId, this`awaitingOver
      ensures LinkView() == UdpMachine.Leave(old(LinkView()))
    {
      var response := messageValidator.FormByeMessage(nextId);
      SendOriginal(Farewell, response);
      awaitingOver := true;
    }

    method SendErrorMessage(error: Text)
      modifies this
      ensures View() == Protest(old(View()), error)
    {
      if waitingForConfirmation {
        errorMessage := error;
        errorWhileWaiting := true;
      } else {
        SendFailure(error);
      }
    }

    method SendFailure(error: Text)
      requires !waitingForConfirmation
      modifies this`sent, this`lastMessage, this`awaitedConfirmId, this`nextId
      modifies this`errorSent, this`waitingForConfirmation
      ensures LinkView() == Complain(old(LinkView()), messageValidator.displayName, error)
    {
      var response := messageValidator.FormErrorMessage(nextId, messageValidator.displayName, error);
      SendOriginal(Failure, response);
      errorSent := true;
      waitingForConfirmation := true;
    }

    method ResendLastMessage()
      modifies this`ticks
      ensures LinkView() == Resend(old(LinkView()))
    {
      ticks := ticks + [Again(|sent|, lastMessage)];
    }

    method IdLookup(id: MsgId) returns (found: bool)
      ensures found <==> id in receivedIds
    {
      for i := 0 to |receivedIds|
        invariant id !in receivedIds[..i]
      {
        if receivedIds[i] == id {
          return true;
        }
      }
      return false;
    }

    // ------------------------------------------------------------------- from the server

    method ProcessServerMessage(message: Datagram) returns (r: ClientState)
      modifies this, fsm
      ensures (View(), r) == ServerStep(old(View()), message)
    {
      r := ProcessReceived(message);
      if waitingForConfirmation {
        r := WaitingForConfirmation;
      }
    }

    method ProcessReceived(message: Datagram) returns (r: ClientState)
      modifies this, fsm
      ensures (View(), r) == Received(old(View()), message)
    {
      var firstByte := message[0];
      if firstByte == CONFIRM {
        r := ProcessConfirm(IdOf(message));
      } else if firstByte == REPLY {
        r := ProcessReply(message);
      } else if firstByte == MSG {
        r := ProcessMsg(message);
      } else if firstByte == ERR {
        r := ProcessErr(message);
      } else if firstByte == BYE {
        r := ProcessBye(message);
      } else {
        if |message| < 3 {
          SendErrorMessage(BAD_FORMAT);
          return WaitingForConfirmation;
        }
        SendConfirmation(IdOf(message));
        SendErrorMessage(BAD_FORMAT);
        r := WaitingForConfirmation;
      }
    }

    method ProcessConfirm(id: MsgId) returns (r: ClientState)
      modifies this
      ensures (View(), r) == OnConfirm(old(View()), id)
    {
      var outcome := MatchConfirm(id);
      match outcome {
        case Unmatched =>
          return WaitingForConfirmation;
        case Parting =>
          return Closed;
        case Apologized =>
          return WaitingForConfirmation;
        case Settled =>
          if waitingForReply {
            waitingForReply := false;
            return WaitingForReply;
          }
          return ReadyForInput;
      }
    }

    /** The part of the CONFIRM branch that concerns the link alone. */
    method MatchConfirm(id: MsgId) returns (outcome: Outcome)
      modifies this`sent, this`lastMessage, this`awaitedConfirmId, this`nextId, this`awaitingOver
      modifies this`errorSent, this`waitingForConfirmation, this`ticks
      ensures (LinkView(), outcome) == Hear(old(LinkView()), id)
    {
      ticks := ticks + [Confirmed(|sent|, id)];
      if id != awaitedConfirmId {
        return Unmatched;
      }
      awaitedConfirmId := NONE;
      if awaitingOver {
        waitingForConfirmation := false;
        return Parting;
      }
      if errorSent {
        errorSent := false;
        SendBye();
        return Apologized;
      }
      waitingForConfirmation := false;
      return Settled;
    }

    method ProcessReply(message: Datagram) returns (r: ClientState)
      modifies this, fsm
      ensures (View(), r) == OnReplyRecord(old(View()), message)
    {
      if |message| < 6 {
        SendErrorMessage(SHORT_REPLY);
        return WaitingForConfirmation;
      }
      var id, status, ref := IdOf(message), message[3], Decode16(message[4], message[5]);
      var response, success := messageValidator.ParseAndValidate(message[6..], OnReply);
      if !success {
        SendErrorMessage(BAD_REPLY_CONTENT);
        return WaitingForConfirmation;
      }
      if status == NEGATIVE {
        r := ProcessVerdict(false, id, ref, response[0]);
      } else if status == POSITIVE {
        r := ProcessVerdict(true, id, ref, response[0]);
      } else {
        SendConfirmation(id);
        SendErrorMessage(BAD_REPLY_STATUS);
        r := WaitingForConfirmation;
      }
    }

    /** The two branches on the reply's status, which differ in the action submitted, the wording
        and the state an unawaited reply leads to. */
    method ProcessVerdict(positive: bool, id: MsgId, ref: MsgId, text: Text) returns (r: ClientState)
      modifies this, fsm
      ensures (View(), r) == Replied(old(View()), positive, id, ref, text)
    {
      var reaction := ValidateAction(if positive then ReplyServer else NReplyServer);
      if reaction == Allow {
        if ref == awaitedReplyId {
          Output(Answered(positive, ref, text));
          SendConfirmation(id);
          PushReceived(id);
          waitingForReply := false;
          awaitedReplyId := NONE;
          return ReadyForInput;
        }
        SendConfirmation(id);
        return if positive then ReadyForInput else WaitingForReply;
      } else if reaction == Fail {
        SendConfirmation(id);
        SendErrorMessage(if positive then BAD_REPLY_STATE else BAD_NREPLY_STATE);
        return WaitingForConfirmation;
      }
      return Indeterminate;
    }

    method ProcessMsg(message: Datagram) returns (r: ClientState)
      modifies this, fsm
      ensures (View(), r) == OnMsgRecord(old(View()), message)
    {
      if |message| < 3 {
        SendErrorMessage(SHORT_MSG);
        return WaitingForConfirmation;
      }
      var id := IdOf(message);
      var response, success := messageValidator.ParseAndValidate(message[3..], OnMsg);
      if !success {
        SendErrorMessage(BAD_MSG_CONTENT);
        return WaitingForConfirmation;
      }
      r := ProcessChat(id, response[0], response[1]);
    }

    method ProcessChat(id: MsgId, name: Text, text: Text) returns (r: ClientState)
      modifies this, fsm
      ensures (View(), r) == OnChat(old(View()), id, name, text)
    {
      var reaction := ValidateAction(MessageServer);
      if reaction != Allow {
        SendErrorMessage(BAD_MSG_STATE);
        return WaitingForConfirmation;
      }
      var known := IdLookup(id);
      SendConfirmation(id);
      if !known {
        PushReceived(id);
        Output(FromPeer(id, name, text));
      }
      return ReadyForInput;
    }

    method ProcessErr(message: Datagram) returns (r: ClientState)
      modifies this, fsm
      ensures (View(), r) == OnErrRecord(old(View()), message)
    {
      if |message| < 4 {
        SendErrorMessage(SHORT_ERR);
        return WaitingForConfirmation;
      }
      var id := IdOf(message);
      var response, success := messageValidator.ParseAndValidate(message[3..], OnErr);
      if !success {
        SendConfirmation(id);
        SendErrorMessage(BAD_ERR_CONTENT);
        return WaitingForConfirmation;
      }
      r := ProcessServerError(id, response[0], response[1]);
    }

    method ProcessServerError(id: MsgId, name: Text, text: Text) returns (r: ClientState)
      modifies this, fsm
      ensures (View(), r) == OnServerError(old(View()), id, name, text)
    {
      var reaction := ValidateAction(ErrorServer);
      if reaction != Allow {
        SendConfirmation(id);
        SendErrorMessage(BAD_ERR_STATE);
        return WaitingForConfirmation;
      }
      r := ProcessFinalError(id, name, text);
    }

    method ProcessFinalError(id: MsgId, name: Text, text: Text) returns (r: ClientState)
      modifies this
      ensures (View(), r) == OnFinalError(old(View()), id, name, text)
    {
      var known := IdLookup(id);
      SendConfirmation(id);
      if known {
        SendBye();
        waitingForConfirmation := true;
        return WaitingForConfirmation;
      }
      PushReceived(id);
      Output(FromPeerError(id, name, text));
      SendBye();
      return ReadyForInput;
    }

    method ProcessBye(message: Datagram) returns (r: ClientState)
      modifies this
      ensures (View(), r) == OnByeRecord(old(View()), message)
    {
      if |message| < 3 {
        SendErrorMessage(SHORT_BYE);
        return WaitingForConfirmation;
      }
      PushReceived(IdOf(message));
      SendConfirmation(IdOf(message));
      return Closed;
    }

    // --------------------------------------------------------------------- from the user

    method ProcessUserInput(message: Text) returns (r: ClientState)
      modifies this, fsm, messageValidator
      ensures (View(), r) == UserStep(old(View()), message)
    {
      if message == "/exit" {
        SendBye();
        waitingForConfirmation := true;
        return WaitingForConfirmation;
      }
      if errorWhileWaiting {
        SendErrorMessage(errorMessage);
        return WaitingForConfirmation;
      }
      var command := Uppercase(Command(message));
      var argument := Argument(message);
      if command == "/AUTH" {
        r := ProcessAuth(argument);
      } else if command == "/JOIN" {
        r := ProcessJoin(argument);
      } else if command == "/RENAME" {
        var renamed := messageValidator.Rename(argument);
        if !renamed {
          Output(Internal(BAD_NAME));
          return ReadyForInput;
        }
        r := Indeterminate;
      } else if command == "/HELP" {
        Output(Help);
        r := ReadyForInput;
      } else {
        r := ProcessText(message);
      }
    }

    method SendRequest(kind: Kind, response: Text, ghost fields: seq<Text>)
      requires response == Record(Code(kind), nextId, fields)
      modifies this
      ensures (View(), WaitingForConfirmation) == Requested(old(View()), kind, fields)
    {
      waitingForReply := true;
      awaitedReplyId := nextId;
      SendAndWait(kind, response, fields);
    }

    method SendAndWait(kind: Kind, response: Text, ghost fields: seq<Text>)
      requires response == Record(Code(kind), nextId, fields)
      modifies this`sent, this`lastMessage, this`awaitedConfirmId, this`nextId
      modifies this`waitingForConfirmation
      ensures LinkView() == Ask(old(LinkView()), kind, fields)
    {
      SendOriginal(kind, response);
      waitingForConfirmation := true;
    }

    method ProcessAuth(argument: Text) returns (r: ClientState)
      modifies this, fsm, messageValidator
      ensures (View(), r) == OnAuth(old(View()), argument)
    {
      var reaction := ValidateAction(AuthorizeUser);
      if reaction == Allow {
        var parts := SplitMessage(argument);
        if |parts| != 3 {
          Output(Internal(BAD_FORM));
          return ReadyForInput;
        }
        var response, success :=
          messageValidator.AuthorizeValidate(AUTH, nextId, parts[0], parts[2], parts[1]);
        if success {
          SendRequest(Authorize, response, [parts[0], parts[2], parts[1]]);
          return WaitingForConfirmation;
        }
        Output(Internal(response));
        return ReadyForInput;
      } else if reaction == Warn {
        Output(Internal(NO_AUTH));
        return ReadyForInput;
      }
      return Indeterminate;
    }

    method ProcessJoin(argument: Text) returns (r: ClientState)
      modifies this, fsm
      ensures (View(), r) == OnJoin(old(View()), argument)
    {
      var reaction := ValidateAction(JoinUser);
      if reaction == Allow {
        var parts := SplitMessage(argument);
        if |parts| != 1 {
          Output(Internal(BAD_FORM));
          return ReadyForInput;
        }
        var response, success := messageValidator.JoinValidate(JOIN, nextId, parts[0]);
        if success {
          SendRequest(JoinChannel, response, [parts[0], messageValidator.displayName]);
          return WaitingForConfirmation;
        }
        Output(Internal(response));
        return ReadyForInput;
      } else if reaction == Warn {
        Output(Internal(NO_JOIN));
        return ReadyForInput;
      }
      return Indeterminate;
    }

    method ProcessText(message: Text) returns (r: ClientState)
      modifies this, fsm
      ensures (View(), r) == OnText(old(View()), message)
    {
      if |message| > 0 && message[0] == '/' {
        Output(Internal(BAD_COMMAND));
        return ReadyForInput;
      }
      var reaction := ValidateAction(MessageUser);
      if reaction == Allow {
        var response, success := messageValidator.MessageValidate(MSG, nextId, message);
        if success {
          waitingForReply := false;
          awaitedReplyId := NONE;
          SendAndWait(Chat, response, [messageValidator.displayName, message]);
          return WaitingForConfirmation;
        }
        Output(Internal(response));
        return ReadyForInput;
      } else if reaction == Warn {
        Output(Internal(NO_MSG));
        return ReadyForInput;
      }
      return Indeterminate;
    }
  }

  // -------------------------------------------------------------------------- the event loop

  class StreamHandler {
    const protocolHandler: UDPProtocolHandler
    var state: ClientState
    var retryCount: nat
    const retrans: nat
    var firstTimeInterrupted: bool

    ghost function View(): Client
      reads this, protocolHandler, protocolHandler.fsm, protocolHandler.messageValidator
    {
      Client(protocolHandler.View(), state, retryCount, retrans, firstTimeInterrupted)
    }

    constructor (retries: nat)
      ensures View() == Launch(retries)
      ensures fresh(protocolHandler) && fresh(protocolHandler.fsm) && fresh(protocolHandler.messageValidator)
    {
      protocolHandler := new UDPProtocolHandler();
      state, retryCount, retrans, firstTimeInterrupted := ReadyForInput, retries, retries, true;
    }

    /** One turn of the loop: the report of one `poll` is acted on. */
    method Turn(e: Event)
      requires state != Closed
      modifies this, protocolHandler, protocolHandler.fsm, protocolHandler.messageValidator
      ensures View() == Tock(old(View()), e)
    {
      match e {
        case Interrupt =>
          if firstTimeInterrupted {
            state := protocolHandler.ProcessUserInput("/exit");
            firstTimeInterrupted := false;
          }
        case Timeout =>
          if state == WaitingForConfirmation {
            if retryCount > 0 {
              protocolHandler.ResendLastMessage();
              retryCount := retryCount - 1;
              state := WaitingForConfirmation;
            } else {
              state := Closed;
            }
          }
        case FromServer(d) =>
          state := protocolHandler.ProcessServerMessage(d);
          if state != WaitingForConfirmation {
            retryCount := retrans;
          }
        case FromUser(line, stray) =>
          if Listening(state) && |line| > 0 {
            var r := protocolHandler.ProcessUserInput(line);
            state := Settle(r, stray);
          }
        case EndOfInput =>
          if Listening(state) {
            state := protocolHandler.ProcessUserInput("/exit");
          }
      }
    }

    method RunEventLoop(reports: seq<Event>)
      modifies this, protocolHandler, protocolHandler.fsm, protocolHandler.messageValidator
      ensures View() == Run(old(View()), reports)
    {
      ghost var start := View();
      var i := 0;
      while i < |reports| && state != Closed
        invariant 0 <= i <= |reports|
        invariant View() == Run(start, reports[..i])
      {
        assert reports[..i + 1][..i] == reports[..i];
        Turn(reports[i]);
        i := i + 1;
      }
      if state == Closed {
        ClosedStays(start, reports, i);
      }
      assert reports[..|reports|] == reports;
    }
  }

  lemma {:induction false} ClosedStays(c: Client, reports: seq<Event>, i: nat)
    requires i <= |reports| && Run(c, reports[..i]).state == Closed
    ensures Run(c, reports) == Run(c, reports[..i])
  {
    if i == |reports| {
      assert reports[..i] == reports;
    } else {
      var init := reports[..|reports| - 1];
      assert init[..i] == reports[..i];
      ClosedStays(c, init, i);
    }
  }
}
