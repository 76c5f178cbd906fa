/** The TCP handler as the program keeps it, every method tied to the functions of TcpMachine. */
module TcpHandler {
  import opened Octets
  import opened Session
  import opened Common
  import opened TcpText
  import opened Framing
  import opened TcpMachine

  class TCPProtocolHandler {
    const messageValidator: TCPMessageValidator
    const fsm: FSMValidate
    var waitingForReply: bool
    var buffer: Text

    ghost var heard: Text
    ghost var delivered: seq<Text>
    ghost var sent: seq<Sent>
    ghost var verdicts: seq<Verdict>
    ghost var shown: seq<Line>

    ghost function View(): Tcp
      reads this, fsm, messageValidator
    {
      Tcp(fsm.View(), messageValidator.displayName, waitingForReply, buffer, heard, delivered, sent,
          verdicts, shown)
    }

    constructor ()
      ensures View() == BOOT
      ensures fresh(fsm) && fresh(messageValidator)
    {
      fsm := new FSMValidate();
      messageValidator := new TCPMessageValidator();
      waitingForReply, buffer := false, [];
      heard, delivered, sent, verdicts, shown := [], [], [], [], [];
    }

    method ValidateAction(action: Action) returns (reaction: Reaction)
      modifies this`verdicts, fsm
      ensures (View(), reaction) == Consult(old(View()), action)
    {
      reaction := fsm.ValidateAction(action);
      verdicts := verdicts + [Verdict(|sent|, action, reaction)];
    }

    method SendMessage(kind: Kind, message: Text)
      modifies this`sent
      ensures View() == Say(old(View()), kind, message)
    {
      sent := sent + [Sent(kind, message)];
    }

    method Output(line: Line)
      modifies this`shown
      ensures View() == Show(old(View()), line)
    {
      shown := shown + [line];
    }

    method SendBye() returns (r: ClientState)
      modifies this`sent
      ensures (View(), r) == Part(old(View()))
    {
      SendMessage(Farewell, BYE_LINE + CRLF);
      r := Closed;
    }

    method SendErrorAndBye(name: Text, error: Text) returns (r: ClientState)
      modifies this`sent
      ensures (View(), r) == Abort(old(View()), name, error)
    {
      SendMessage(Failure, ErrLine(name, error) + CRLF);
      r := SendBye();
    }

    // ----------------------------------------------------------------------- from the server

    /** One successful `recv`: append, then cut and hand on complete frames. */
    method ProcessServerMessage(bytes: Text, strays: Strays) returns (r: ClientState)
      modifies this, fsm
      ensures (View(), r) == Feed(old(View()), bytes, strays)
    {
      heard := heard + bytes;
      buffer := buffer + bytes;
      ghost var start := View();
      var k: nat := 0;
      var pos := FindCrlf(buffer);
      while pos < |buffer|
        invariant pos == First(buffer)
        invariant Drain(View(), strays, k) == Drain(start, strays, 0)
        decreases |buffer|
      {
        var state := DeliverFrame(pos);
        state := Settle(state, strays(k));
        if state != ReadyForInput {
          return state;
        }
        k := k + 1;
        pos := FindCrlf(buffer);
      }
      r := ReadyForInput;
    }

    /** Extract the frame in front, erase it with its CR LF, and process it. */
    method DeliverFrame(pos: nat) returns (state: ClientState)
      requires HasFrame(buffer) && pos == First(buffer)
      modifies this, fsm
      ensures (View(), state) == Received(Taken(old(View())), Head(old(buffer)))
      ensures buffer == Rest(old(buffer))
    {
      FirstSpec(buffer);
      var message := buffer[..pos];
      buffer := buffer[pos + 2..];
      delivered := delivered + [message];
      state := ProcessReceived(message);
    }

    method ProcessReceived(message: Text) returns (r: ClientState)
      modifies this`waitingForReply, this`sent, this`verdicts, this`shown, fsm
      ensures (View(), r) == Received(old(View()), message)
    {
      var parts := SplitMessage(message);
      var command := Uppercase(parts[0]);
      var status: Text := [];
      if |parts| > 1 {
        status := Uppercase(parts[1]);
      }
      if command == "MSG" {
        r := ProcessChat(message);
      } else if command == "REPLY" {
        if status == "OK" {
          r := ProcessReply(true, message);
        } else if status == "NOK" {
          r := ProcessReply(false, message);
        } else {
          r := Indeterminate;
        }
      } else if command == "ERR" {
        r := ProcessError(message);
      } else if command == "BYE" {
        r := ProcessBye();
      } else {
        Output(Internal(BAD_COMMAND));
        r := SendErrorAndBye(messageValidator.displayName, BAD_COMMAND);
      }
    }

    method ProcessChat(message: Text) returns (r: ClientState)
      modifies this`sent, this`verdicts, this`shown, fsm
      ensures (View(), r) == OnChat(old(View()), message)
    {
      var reaction := ValidateAction(MessageServer);
      if reaction == Allow {
        var reading := messageValidator.ValidateMessageServer(message);
        if reading.ok {
          Output(FromPeer(reading.name, reading.text));
          return if waitingForReply then WaitingForReply else ReadyForInput;
        }
        r := SendErrorAndBye(reading.name, BAD_MSG_FORM);
      } else if reaction == Fail {
        r := SendErrorAndBye([], BAD_MSG_STATE);
      } else {
        r := ReadyForInput;
      }
    }

    /** The OK and NOK branches, which differ in the action submitted and the line shown. */
    method ProcessReply(positive: bool, message: Text) returns (r: ClientState)
      modifies this`waitingForReply, this`sent, this`verdicts, this`shown, fsm
      ensures (View(), r) == OnReply(old(View()), positive, message)
    {
      var reaction := ValidateAction(if positive then ReplyServer else NReplyServer);
      if reaction == Allow {
        var reading := messageValidator.ValidateReply(message);
        match reading {
          case Broken =>
            return Indeterminate;
          case Reading(text, _, ok) =>
            if !ok {
              r := SendErrorAndBye(messageValidator.displayName, BAD_REPLY_FORM);
              return;
            }
            if waitingForReply {
              Output(Answered(positive, text));
              waitingForReply := false;
            }
            return ReadyForInput;
        }
      } else if reaction == Fail {
        r := SendErrorAndBye(messageValidator.displayName, BAD_REPLY_STATE);
      } else {
        r := Indeterminate;
      }
    }

    method ProcessError(message: Text) returns (r: ClientState)
      modifies this`sent, this`verdicts, this`shown, fsm
      ensures (View(), r) == OnError(old(View()), message)
    {
      var reaction := ValidateAction(ErrorServer);
      if reaction == Allow {
        var reading := messageValidator.ValidateErrorServer(message);
        if reading.ok {
          Output(FromPeerError(reading.name, reading.text));
          r := SendBye();
        } else {
          r := SendErrorAndBye(messageValidator.displayName, BAD_ERR_FORM);
        }
      } else if reaction == Fail {
        r := SendErrorAndBye(messageValidator.displayName, BAD_ERR_STATE);
      } else {
        r := Indeterminate;
      }
    }

    method ProcessBye() returns (r: ClientState)
      modifies this`sent, this`verdicts, fsm
      ensures (View(), r) == OnBye(old(View()))
    {
      var reaction := ValidateAction(ByeServer);
      if reaction == Allow {
        r := Closed;
      } else if reaction == Fail {
        r := SendErrorAndBye(messageValidator.displayName, BAD_BYE_STATE);
      } else {
        r := Indeterminate;
      }
    }

    // ------------------------------------------------------------------------- from the user

    method ProcessUserInput(message: Text) returns (r: ClientState)
      modifies this, fsm, messageValidator
      ensures (View(), r) == UserStep(old(View()), message)
    {
      if message == "/exit" {
        r := SendBye();
        return;
      }
      var command := Uppercase(Command(message));
      var argument := Argument(message);
      if command == "/AUTH" {
        r := ProcessAuth(argument);
      } else if command == "/JOIN" {
        r := ProcessJoin(argument);
      } else if command == "/RENAME" {
        var renamed := messageValidator.Rename(argument);
        if !renamed {
          Output(Internal(BAD_NAME));
          return ReadyForInput;
        }
        r := Indeterminate;
      } else if command == "/HELP" {
        Output(Help);
        r := ReadyForInput;
      } else {
        r := ProcessText(message);
      }
    }

    method ProcessAuth(argument: Text) returns (r: ClientState)
      modifies this, fsm, messageValidator
      ensures (View(), r) == OnAuth(old(View()), argument)
    {
      var reaction := ValidateAction(AuthorizeUser);
      if reaction == Allow {
        var response, ok := messageValidator.AuthorizeValidate(argument);
        if ok {
          SendMessage(Authorize, response);
          waitingForReply := true;
          return WaitingForReply;
        }
        Output(Internal(response));
        return ReadyForInput;
      } else if reaction == Warn {
        Output(Internal(NO_AUTH));
        return ReadyForInput;
      }
      return Indeterminate;
    }

    method ProcessJoin(argument: Text) returns (r: ClientState)
      modifies this, fsm
      ensures (View(), r) == OnJoin(old(View()), argument)
    {
      var reaction := ValidateAction(JoinUser);
      if reaction == Allow {
        var response, ok := messageValidator.JoinValidate(argument);
        if ok {
          SendMessage(JoinChannel, response);
          waitingForReply := true;
          return WaitingForReply;
        }
        Output(Internal(response));
        return ReadyForInput;
      } else if reaction == Warn {
        Output(Internal(NO_JOIN));
        return ReadyForInput;
      }
      return Indeterminate;
    }

    method ProcessText(message: Text) returns (r: ClientState)
      modifies this, fsm
      ensures (View(), r) == OnText(old(View()), message)
    {
      if |message| > 0 && message[0] == '/' {
        Output(Internal(BAD_COMMAND));
        return ReadyForInput;
      }
      var reaction := ValidateAction(MessageUser);
      if reaction == Allow {
        var response, ok := messageValidator.MessageValidate(message);
        if ok {
          SendMessage(Chat, response);
        } else {
          Output(Internal(response));
        }
      } else if reaction == Warn {
        Output(Internal(NO_MSG));
      }
      r := ReadyForInput;
    }
  }

  /** The event loop around this handler: the loop of UdpHandler, over TCP's events. */
  class StreamHandler {
    const protocolHandler: TCPProtocolHandler
    var state: ClientState
    var retryCount: nat
    const retrans: nat
    var firstTimeInterrupted: bool

    ghost function View(): Client
      reads this, protocolHandler, protocolHandler.fsm, protocolHandler.messageValidator
    {
      Client(protocolHandler.View(), state, retryCount, retrans, firstTimeInterrupted)
    }

    constructor (retries: nat)
      ensures View() == Launch(retries)
      ensures fresh(protocolHandler) && fresh(protocolHandler.fsm) && fresh(protocolHandler.messageValidator)
    {
      protocolHandler := new TCPProtocolHandler();
      state, retryCount, retrans, firstTimeInterrupted := ReadyForInput, retries, retries, true;
    }

    /** One turn of the loop: the report of one `poll` is acted on. */
    method Turn(e: Event)
      requires state != Closed
      modifies this, protocolHandler, protocolHandler.fsm, protocolHandler.messageValidator
      ensures View() == Tock(old(View()), e)
    {
      match e {
        case Interrupt =>
          if firstTimeInterrupted {
            state := protocolHandler.ProcessUserInput("/exit");
            firstTimeInterrupted := false;
          }
        case Timeout =>
          if state == WaitingForConfirmation {
            if retryCount > 0 {
              retryCount := retryCount - 1;
              state := WaitingForConfirmation;
            } else {
              state := Closed;
            }
          }
        case Chunk(bytes, strays) =>
          if |bytes| > 0 {
            state := protocolHandler.ProcessServerMessage(bytes, strays);
            RestoreBudget();
          }
        case Hangup =>
          state := Closed;
          RestoreBudget();
        case FromUser(line, stray) =>
          if Listening(state) && |line| > 0 {
            var r := protocolHandler.ProcessUserInput(line);
            state := Settle(r, stray);
          }
        case EndOfInput =>
          if Listening(state) {
            state := protocolHandler.ProcessUserInput("/exit");
          }
      }
    }

    method RestoreBudget()
      modifies this`retryCount
      ensures View() == FromSocket(old(View()), state)
    {
      if state != WaitingForConfirmation {
        retryCount := retrans;
      }
    }

    method RunEventLoop(reports: seq<Event>)
      modifies this, protocolHandler, protocolHandler.fsm, protocolHandler.messageValidator
      ensures View() == Run(old(View()), reports)
    {
      ghost var start := View();
      var i := 0;
      while i < |reports| && state != Closed
        invariant 0 <= i <= |reports|
        invariant View() == Run(start, reports[..i])
      {
        assert reports[..i + 1][..i] == reports[..i];
        Turn(reports[i]);
        i := i + 1;
      }
      if state == Closed {
        ClosedStays(start, reports, i);
      }
      assert reports[..|reports|] == reports;
    }
  }

  lemma {:induction false} ClosedStays(c: Client, reports: seq<Event>, i: nat)
    requires i <= |reports| && Run(c, reports[..i]).state == Closed
    ensures Run(c, reports) == Run(c, reports[..i])
  {
    if i == |reports| {
      assert reports[..i] == reports;
    } else {
      var init := reports[..|reports| - 1];
      assert init[..i] == reports[..i];
      ClosedStays(c, init, i);
    }
  }
}
