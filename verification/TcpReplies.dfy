/** What the TCP client makes of replies: how many are shown, and which log it in. */
module TcpReplies {
  import opened Octets
  import opened Session
  import opened Common
  import opened CommandLines
  import opened TcpText
  import opened Framing
  import opened TcpMachine
  import opened TcpSession

  // ----------------------------------------------------------------------------- reply credit

  /** The AUTH and JOIN lines sent. */
  function Asks(sent: seq<Sent>): nat {
    if |sent| == 0 then 0
    else Asks(sent[..|sent| - 1]) + if sent[|sent| - 1].kind in {Authorize, JoinChannel} then 1 else 0
  }

  /** The replies displayed. */
  function Replies(shown: seq<Line>): nat {
    if |shown| == 0 then 0
    else Replies(shown[..|shown| - 1]) + if shown[|shown| - 1].Answered? then 1 else 0
  }

  /** Replies displayed or awaited, less the requests they could answer. */
  function Balance(t: Tcp): int {
    Replies(t.shown) + (if t.waitReply then 1 else 0) - Asks(t.sent)
  }

  lemma SayBalance(t: Tcp, kind: Kind, text: Text)
    ensures Balance(Say(t, kind, text)) == Balance(t) - if kind in {Authorize, JoinChannel} then 1 else 0
  {
    assert (t.sent + [Sent(kind, text)])[..|t.sent|] == t.sent;
  }

  lemma ShowBalance(t: Tcp, line: Line)
    ensures Balance(Show(t, line)) == Balance(t) + if line.Answered? then 1 else 0
  {
    assert (t.shown + [line])[..|t.shown|] == t.shown;
  }

  lemma AbortBalance(t: Tcp, name: Text, text: Text)
    ensures Balance(Abort(t, name, text).0) == Balance(t) && Balance(Part(t).0) == Balance(t)
  {
    SayBalance(t, Failure, ErrLine(name, text) + CRLF);
    SayBalance(Say(t, Failure, ErrLine(name, text) + CRLF), Farewell, BYE_LINE + CRLF);
    SayBalance(t, Farewell, BYE_LINE + CRLF);
  }

  lemma ChatBalance(t: Tcp, frame: Text)
    ensures Balance(OnChat(t, frame).0) == Balance(t)
  {
    var v := Consult(t, MessageServer).0;
    var reading := ReadMsg(t.name, frame);
    ShowBalance(v, FromPeer(reading.name, reading.text));
    AbortBalance(v, reading.name, BAD_MSG_FORM);
    AbortBalance(v, [], BAD_MSG_STATE);
  }

  lemma ReplyBalance(t: Tcp, positive: bool, frame: Text)
    ensures Balance(OnReply(t, positive, frame).0) == Balance(t)
  {
    var v := Consult(t, if positive then ReplyServer else NReplyServer).0;
    AbortBalance(v, t.name, BAD_REPLY_FORM);
    AbortBalance(v, t.name, BAD_REPLY_STATE);
    if ReadReply(frame).Reading? {
      ShowBalance(v, Answered(positive, ReadReply(frame).text));
    }
  }

  lemma ErrorBalance(t: Tcp, frame: Text)
    ensures Balance(OnError(t, frame).0) == Balance(t)
  {
    var v := Consult(t, ErrorServer).0;
    var line := FromPeerError(ReadErr(frame).name, ReadErr(frame).text);
    ShowBalance(v, line);
    AbortBalance(Show(v, line), [], []);
    AbortBalance(v, t.name, BAD_ERR_FORM);
    AbortBalance(v, t.name, BAD_ERR_STATE);
  }

  lemma ByeBalance(t: Tcp)
    ensures Balance(OnBye(t).0) == Balance(t)
  {
    AbortBalance(Consult(t, ByeServer).0, t.name, BAD_BYE_STATE);
  }

  lemma ReceivedBalance(t: Tcp, frame: Text)
    ensures Balance(Received(t, frame).0) == Balance(t)
  {
    var command := ToUpper(Split(frame, SP)[0]);
    if command == "MSG" {
      ChatBalance(t, frame);
    } else if command == "REPLY" {
      ReplyBalance(t, true, frame);
      ReplyBalance(t, false, frame);
    } else if command == "ERR" {
      ErrorBalance(t, frame);
    } else if command == "BYE" {
      ByeBalance(t);
    } else {
      ShowBalance(t, Internal(BAD_COMMAND));
      AbortBalance(Show(t, Internal(BAD_COMMAND)), t.name, BAD_COMMAND);
    }
  }

  lemma {:induction false} DrainBalance(t: Tcp, strays: Strays, k: nat)
    ensures Balance(Drain(t, strays, k).0) == Balance(t)
    decreases |t.buffer|
  {
    if HasFrame(t.buffer) {
      var (v, r) := Received(Taken(t), Head(t.buffer));
      ReceivedBalance(Taken(t), Head(t.buffer));
      if Settle(r, strays(k)) == ReadyForInput {
        DrainBalance(v, strays, k + 1);
      }
    }
  }

  lemma AuthBalance(t: Tcp, argument: Text)
    ensures Balance(OnAuth(t, argument).0) <= Balance(t)
  {
    var v := Consult(t, AuthorizeUser).0;
    var parts := Split(argument, SP);
    ShowBalance(v, Internal(AuthComplaint(parts)));
    ShowBalance(v, Internal(NO_AUTH));
    if ValidCredentials(parts) {
      SayBalance(v, Authorize, AuthLine(parts[0], parts[2], parts[1]) + CRLF);
    }
  }

  lemma JoinBalance(t: Tcp, argument: Text)
    ensures Balance(OnJoin(t, argument).0) <= Balance(t)
  {
    var v := Consult(t, JoinUser).0;
    ShowBalance(v, Internal(JoinComplaint(Split(argument, SP))));
    ShowBalance(v, Internal(NO_JOIN));
    SayBalance(v, JoinChannel, JoinLine(argument, t.name) + CRLF);
  }

  lemma TextBalance(t: Tcp, line: Text)
    ensures Balance(OnText(t, line).0) <= Balance(t)
  {
    if |line| > 0 && line[0] == '/' {
      ShowBalance(t, Internal(BAD_COMMAND));
    } else {
      var (v, r) := Consult(t, MessageUser);
      ShowBalance(v, Internal(BAD_TEXT));
      ShowBalance(v, Internal(NO_MSG));
      SayBalance(v, Chat, MsgLine(t.name, line) + CRLF);
    }
  }

  lemma UserBalance(t: Tcp, line: Text)
    ensures Balance(UserStep(t, line).0) <= Balance(t)
  {
    var command := ToUpper(Command(line));
    if line == "/exit" {
      AbortBalance(t, [], []);
    } else if command == "/AUTH" {
      AuthBalance(t, Argument(line));
    } else if command == "/JOIN" {
      JoinBalance(t, Argument(line));
    } else if command in {"/RENAME", "/HELP"} {
      ShowBalance(t, Internal(BAD_NAME));
      ShowBalance(t, Help);
    } else {
      TextBalance(t, line);
    }
  }

  lemma TockBalance(c: Client, e: Event)
    ensures Balance(Tock(c, e).tcp) <= Balance(c.tcp)
  {
    match e {
      case Chunk(bytes, strays) => DrainBalance(Buffered(c.tcp, bytes), strays, 0);
      case FromUser(line, _) => UserBalance(c.tcp, line);
      case Interrupt => UserBalance(c.tcp, "/exit");
      case EndOfInput => UserBalance(c.tcp, "/exit");
      case _ =>
    }
  }

  /** Over every run, the replies displayed, and one more while a reply is awaited, are at most as
      many as the requests sent. */
  lemma {:induction false} ReplyCredit(max: nat, events: seq<Event>)
    ensures var t := Run(Launch(max), events).tcp;
      Replies(t.shown) + (if t.waitReply then 1 else 0) <= Asks(t.sent)
  {
    if |events| > 0 {
      ReplyCredit(max, events[..|events| - 1]);
      TockBalance(Run(Launch(max), events[..|events| - 1]), events[|events| - 1]);
    }
  }

  // ------------------------------------------------------------------------------- logging in

  /** A line that starts with REPLY OK, in any letter case. */
  predicate SaysOk(frame: Text) {
    var parts := Split(frame, SP);
    |parts| > 1 && ToUpper(parts[0]) == "REPLY" && ToUpper(parts[1]) == "OK"
  }

  lemma StepOpens(f: Fsm, a: Action)
    requires Working(f) && f.current != Open && Submitted(a)
    ensures Step(f, a).0.current == Open <==> a == ReplyServer && f.current == Auth && !Restricted(f)
  {
  }

  /** The action a frame makes the handler submit, if any. */
  function FrameActions(frame: Text): seq<Action> {
    var parts := Split(frame, SP);
    var command := ToUpper(parts[0]);
    if command == "MSG" then [MessageServer]
    else if command == "REPLY" then
      if SaysOk(frame) then [ReplyServer]
      else if |parts| > 1 && ToUpper(parts[1]) == "NOK" then [NReplyServer]
      else []
    else if command == "ERR" then [ErrorServer]
    else if command == "BYE" then [ByeServer]
    else []
  }

  lemma ReplyAsks(t: Tcp, positive: bool, frame: Text)
    ensures OnReply(t, positive, frame).0.fsm == Step(t.fsm, if positive then ReplyServer else NReplyServer).0
  {
  }

  lemma ReceivedAsks(t: Tcp, frame: Text)
    ensures var actions := FrameActions(frame);
      Received(t, frame).0.fsm == if |actions| == 0 then t.fsm else Step(t.fsm, actions[0]).0
  {
    var command := ToUpper(Split(frame, SP)[0]);
    if command == "REPLY" {
      ReplyAsks(t, SaysOk(frame), frame);
    } else if command == "MSG" {
      assert OnChat(t, frame).0.fsm == Step(t.fsm, MessageServer).0;
    } else if command == "ERR" {
      assert OnError(t, frame).0.fsm == Step(t.fsm, ErrorServer).0;
    } else if command == "BYE" {
      assert OnBye(t).0.fsm == Step(t.fsm, ByeServer).0;
    }
  }

  lemma FrameLogsIn(t: Tcp, frame: Text)
    requires Working(t.fsm) && t.fsm.current != Open
    ensures Received(t, frame).0.fsm.current == Open <==> SaysOk(frame) && t.fsm.current == Auth && !Restricted(t.fsm)
  {
    ReceivedAsks(t, frame);
    if |FrameActions(frame)| > 0 {
      StepOpens(t.fsm, FrameActions(frame)[0]);
    }
  }

  lemma TextLogsInNobody(t: Tcp, line: Text)
    requires Working(t.fsm) && t.fsm.current != Open
    ensures OnText(t, line).0.fsm.current != Open
  {
    StepOpens(t.fsm, MessageUser);
  }

  lemma RequestLogsInNobody(t: Tcp, argument: Text)
    requires Working(t.fsm) && t.fsm.current != Open
    ensures OnAuth(t, argument).0.fsm.current != Open && OnJoin(t, argument).0.fsm.current != Open
  {
    StepOpens(t.fsm, AuthorizeUser);
    StepOpens(t.fsm, JoinUser);
  }

  lemma LineLogsInNobody(t: Tcp, line: Text)
    requires Working(t.fsm) && t.fsm.current != Open
    ensures UserStep(t, line).0.fsm.current != Open
  {
    RequestLogsInNobody(t, Argument(line));
    TextLogsInNobody(t, line);
  }

  /** Of all the frames of all the chunks of every run, one logs the client in if and only if it
      starts with REPLY OK and meets AUTH with no restriction armed, whether or not an AUTH was
      sent, a reply is awaited, or the frame can be read. */
  lemma LoginExactly(max: nat, before: seq<Event>, bytes: Text, strays: Strays, s: Tcp, frame: Text)
    requires Meets(max, before, bytes, strays, s, frame) && s.fsm.current != Open
    ensures Received(s, frame).0.fsm.current == Open
      <==> SaysOk(frame) && s.fsm.current == Auth && !Restricted(s.fsm)
  {
    MeetsSane(max, before, bytes, strays, s, frame);
    FrameLogsIn(s, frame);
  }

  /** And nothing the user types does. */
  lemma NoLineLogsIn(max: nat, before: seq<Event>, line: Text)
    requires Run(Launch(max), before).state != Closed && Run(Launch(max), before).tcp.fsm.current != Open
    ensures UserStep(Run(Launch(max), before).tcp, line).0.fsm.current != Open
  {
    RunLive(max, before);
    LineLogsInNobody(Run(Launch(max), before).tcp, line);
  }

  /** A readable REPLY OK, awaited and let through. */
  predicate Success(t: Tcp, frame: Text) {
    SaysOk(frame) && ReadReply(frame).Reading? && ReadReply(frame).ok
    && t.waitReply && Step(t.fsm, ReplyServer).1 == Allow
  }

  lemma SuccessStep(t: Tcp, frame: Text)
    requires Working(t.fsm) && t.fsm.current == Auth && Success(t, frame)
    ensures var v := Received(t, frame).0;
      && v.shown == t.shown + [Answered(true, ReadReply(frame).text)]
      && (v.fsm.current == Open <==> !Restricted(t.fsm))
      && (v.fsm.current != Open ==> v.fsm.current == Auth && v.fsm.expected == [Any])
  {
  }

  /** As over UDP, in AUTH such a reply is shown as a success, but it logs the client in if and
      only if no restriction is armed. */
  lemma ShownSuccessLogsInExactly(max: nat, before: seq<Event>, bytes: Text, strays: Strays, s: Tcp, frame: Text)
    requires Meets(max, before, bytes, strays, s, frame) && s.fsm.current == Auth && Success(s, frame)
    ensures var v := Received(s, frame).0;
      && v.shown == s.shown + [Answered(true, ReadReply(frame).text)]
      && (v.fsm.current == Open <==> !Restricted(s.fsm))
      && (v.fsm.current != Open ==> v.fsm.current == Auth && v.fsm.expected == [Any])
  {
    MeetsSane(max, before, bytes, strays, s, frame);
    SuccessStep(s, frame);
  }

  lemma TypoIsAccepted(typo: Text)
    requires TypoLine(typo)
    ensures var (v, r) := UserStep(BOOT, typo);
      r == ReadyForInput && v.fsm == Fsm(Auth, Start, [Any]) && |v.sent| == 0 && |v.buffer| == 0
  {
  }

  lemma AuthAfterTypo(t: Tcp, auth: Text)
    requires AuthorizeLine(auth) && t.fsm == Fsm(Auth, Start, [Any])
    ensures var (v, r) := UserStep(t, auth);
      && r == WaitingForReply && v.waitReply && v.buffer == t.buffer
      && v.fsm == Fsm(Auth, Auth, [ReplyServer, NReplyServer, ErrorServer])
  {
  }

  /** The first AUTH waits for its answer with the list armed. */
  predicate ArmedAtFirst(c: Client) {
    && c.state == WaitingForReply && c.tcp.waitReply && |c.tcp.buffer| == 0
    && c.tcp.fsm == Fsm(Auth, Auth, [ReplyServer, NReplyServer, ErrorServer])
  }

  lemma RunLast(c: Client, events: seq<Event>, e: Event)
    ensures Run(c, events + [e]) == Tock(Run(c, events), e)
  {
    assert (events + [e])[..|events|] == events;
  }

  lemma RunOfTwo(c: Client, a: Event, b: Event)
    ensures Run(c, [a, b]) == Tock(Tock(c, a), b)
  {
    RunLast(c, [], a);
    RunLast(c, [a], b);
    assert [] + [a] == [a] && [a] + [b] == [a, b];
  }

  lemma TypoThenAuth(max: nat, typo: Text, auth: Text, stray: ClientState)
    requires TypoLine(typo) && AuthorizeLine(auth)
    ensures ArmedAtFirst(Tock(Tock(Launch(max), FromUser(typo, stray)), FromUser(auth, stray)))
  {
    assert |typo| > 0 && |auth| > 0;
    TypoIsAccepted(typo);
    LineIsTaken(Launch(max), typo, stray);
    var c := Tock(Launch(max), FromUser(typo, stray));
    AuthAfterTypo(c.tcp, auth);
    LineIsTaken(c, auth, stray);
  }

  lemma LineIsTaken(c: Client, line: Text, stray: ClientState)
    requires Listening(c.state) && |line| > 0
    ensures var (t, r) := UserStep(c.tcp, line);
      Tock(c, FromUser(line, stray)) == c.(tcp := t, state := Settle(r, stray))
  {
  }

  lemma ThenSuccess(c: Client, frame: Text, strays: Strays)
    requires ArmedAtFirst(c) && Whole(frame)
    requires SaysOk(frame) && ReadReply(frame).Reading? && ReadReply(frame).ok
    ensures var d := Tock(c, Chunk(frame + CRLF, strays));
      && d.state == ReadyForInput && d.tcp.fsm.current == Auth
      && d.tcp.shown == c.tcp.shown + [Answered(true, ReadReply(frame).text)]
  {
    var t := Buffered(c.tcp, frame + CRLF);
    assert t.buffer == frame + CRLF + [];
    FrameInFront(frame, []);
    SuccessStep(Taken(t), frame);
    AnswerToOk(Taken(t), frame);
    DrainOne(t, strays);
  }

  lemma DrainOne(t: Tcp, strays: Strays)
    requires HasFrame(t.buffer) && Rest(t.buffer) == []
    requires Received(Taken(t), Head(t.buffer)).1 == ReadyForInput
    ensures Drain(t, strays, 0) == Received(Taken(t), Head(t.buffer))
  {
  }

  lemma AnswerToOk(t: Tcp, frame: Text)
    requires Success(t, frame)
    ensures Received(t, frame).1 == ReadyForInput
  {
  }

  /** And over TCP too one slip is enough: `/auth` mistyped, then typed right and answered with
      success, is shown as a success and leaves the client in AUTH. */
  lemma TypoSpoilsLogin(max: nat, typo: Text, auth: Text, stray: ClientState, frame: Text, strays: Strays)
      returns (events: seq<Event>)
    requires TypoLine(typo) && AuthorizeLine(auth) && Whole(frame)
    requires SaysOk(frame) && ReadReply(frame).Reading? && ReadReply(frame).ok
    ensures events == [FromUser(typo, stray), FromUser(auth, stray), Chunk(frame + CRLF, strays)]
    ensures var c := Run(Launch(max), events);
      && c.state == ReadyForInput && c.tcp.fsm.current == Auth
      && Answered(true, ReadReply(frame).text) in c.tcp.shown
  {
    var told := [FromUser(typo, stray), FromUser(auth, stray)];
    events := told + [Chunk(frame + CRLF, strays)];
    RunOfTwo(Launch(max), FromUser(typo, stray), FromUser(auth, stray));
    RunLast(Launch(max), told, Chunk(frame + CRLF, strays));
    TypoThenAuth(max, typo, auth, stray);
    ThenSuccess(Run(Launch(max), told), frame, strays);
  }
}
