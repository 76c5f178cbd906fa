/** What a frame and a line do to the TCP client, told by what can be observed: the terminal, the
    lines sent, the session asked, the reply awaited and what the loop is told. */
module TcpEffects {
  import opened Octets
  import opened Grammar
  import opened Session
  import opened SessionTable
  import opened Common
  import opened CommandLines
  import opened TcpText
  import opened TcpMachine
  import opened TcpSession
  import opened TcpReplies

  // ------------------------------------------------------------------------------- the words

  /** A line of these words, one space apart, ended by CR LF. */
  predicate Speaks(s: Sent, kind: Kind, words: seq<Text>)
    requires |words| > 0
  {
    s.kind == kind && s.text == Join(words, SP) + CRLF
  }

  lemma JoinWords3(a: Text, b: Text, c: Text, d: Text)
    ensures Join([a, b, c, d], SP) == Words3(a, b, c, d)
  {
    Peel3([a, b, c, d]);
    assert [a, b, c, d][3..] == [d];
  }

  lemma JoinWords4(a: Text, b: Text, c: Text, d: Text, e: Text)
    ensures Join([a, b, c, d, e], SP) == Words4(a, b, c, d, e)
  {
    Peel4([a, b, c, d, e]);
    assert [a, b, c, d, e][4..] == [e];
  }

  lemma AuthLineIsWords(id: Text, name: Text, secret: Text)
    ensures AuthLine(id, name, secret) == Join(["AUTH", id, "AS", name, "USING", secret], SP)
  {
    var words: seq<Text> := ["AUTH", id, "AS", name, "USING", secret];
    Peel(words);
    assert words[1..] == [id, "AS", name, "USING", secret];
    JoinWords4(id, "AS", name, "USING", secret);
  }

  lemma JoinLineIsWords(channel: Text, name: Text)
    ensures JoinLine(channel, name) == Join(["JOIN", channel, "AS", name], SP)
  {
    JoinWords3("JOIN", channel, "AS", name);
  }

  lemma ChatLineIsWords(name: Text, text: Text)
    ensures MsgLine(name, text) == Join(["MSG", "FROM", name, "IS", text], SP)
    ensures ErrLine(name, text) == Join(["ERR", "FROM", name, "IS", text], SP)
  {
    MsgLineIsWords(name, text);
    JoinWords4("MSG", "FROM", name, "IS", text);
    JoinWords4("ERR", "FROM", name, "IS", text);
  }

  // ---------------------------------------------------------------------------- what is sent

  predicate SaysNothing(t: Tcp, v: Tcp) {
    v.sent == t.sent
  }

  predicate SaysBye(t: Tcp, v: Tcp) {
    && |v.sent| == |t.sent| + 1 && t.sent <= v.sent
    && Speaks(v.sent[|t.sent|], Farewell, ["BYE"])
  }

  /** One ERR line with this name and text, then one BYE line. */
  predicate SaysErrAndBye(t: Tcp, v: Tcp, name: Text, text: Text) {
    && |v.sent| == |t.sent| + 2 && t.sent <= v.sent
    && Speaks(v.sent[|t.sent|], Failure, ["ERR", "FROM", name, "IS", text])
    && Speaks(v.sent[|t.sent| + 1], Farewell, ["BYE"])
  }

  lemma PartSays(t: Tcp)
    ensures SaysBye(t, Part(t).0)
  {
  }

  lemma AbortSays(t: Tcp, name: Text, text: Text)
    ensures SaysErrAndBye(t, Abort(t, name, text).0, name, text)
  {
    ChatLineIsWords(name, text);
  }

  // -------------------------------------------------------------------------------- a frame

  /** What a frame asks the session, whether it is let through, and whether it can be read. */
  predicate Admitted(s: Tcp, frame: Text) {
    |FrameActions(frame)| > 0 && Step(s.fsm, FrameActions(frame)[0]).1 == Allow
  }

  predicate Starts(frame: Text, keyword: Text) {
    ToUpper(Split(frame, SP)[0]) == keyword
  }

  predicate IsReply(frame: Text) {
    FrameActions(frame) in [[ReplyServer], [NReplyServer]]
  }

  /** A REPLY whose text can be read. */
  predicate Legible(frame: Text) {
    ReadReply(frame).Reading? && ReadReply(frame).ok
  }

  /** What goes on the terminal. */
  function Displayed(s: Tcp, frame: Text): seq<Line> {
    if Starts(frame, "MSG") then
      var r := ReadMsg(s.name, frame);
      if Admitted(s, frame) && r.ok then [FromPeer(r.name, r.text)] else []
    else if Starts(frame, "ERR") then
      var r := ReadErr(frame);
      if Admitted(s, frame) && r.ok then [FromPeerError(r.name, r.text)] else []
    else if IsReply(frame) then
      if Admitted(s, frame) && Legible(frame) && s.waitReply then
        [Answered(FrameActions(frame) == [ReplyServer], ReadReply(frame).text)]
      else []
    else if Starts(frame, "REPLY") || Starts(frame, "BYE") then []
    else [Internal(BAD_COMMAND)]
  }

  /** The frame cannot be left standing: its keyword is unknown, the session forbids it, or it is
      let through and cannot be read. */
  predicate Offends(s: Tcp, frame: Text) {
    if Starts(frame, "MSG") then !Admitted(s, frame) || !ReadMsg(s.name, frame).ok
    else if Starts(frame, "ERR") then !Admitted(s, frame) || !ReadErr(frame).ok
    else if IsReply(frame) then !Admitted(s, frame) || (ReadReply(frame).Reading? && !ReadReply(frame).ok)
    else if Starts(frame, "BYE") then !Admitted(s, frame)
    else !Starts(frame, "REPLY")
  }

  /** What the ERR sent in return says, and in whose name: the client's own, but nobody's for a
      forbidden MSG, and for an unreadable one the sender's if it can be made out. */
  function Complaint(s: Tcp, frame: Text): (Text, Text) {
    if Starts(frame, "MSG") then
      if Admitted(s, frame) then (ReadMsg(s.name, frame).name, BAD_MSG_FORM) else ([], BAD_MSG_STATE)
    else if Starts(frame, "ERR") then (s.name, if Admitted(s, frame) then BAD_ERR_FORM else BAD_ERR_STATE)
    else if Starts(frame, "BYE") then (s.name, BAD_BYE_STATE)
    else if Starts(frame, "REPLY") then
      (s.name, if Admitted(s, frame) then BAD_REPLY_FORM else BAD_REPLY_STATE)
    else (s.name, BAD_COMMAND)
  }

  /** What the loop is told about a frame that gives no offence. */
  function Told(s: Tcp, frame: Text): ClientState {
    if Starts(frame, "MSG") then (if s.waitReply then WaitingForReply else ReadyForInput)
    else if Starts(frame, "ERR") || Starts(frame, "BYE") then Closed
    else if IsReply(frame) && Legible(frame) then ReadyForInput
    else Indeterminate
  }

  /** The session is asked what the frame stands for, and nothing else. */
  predicate Asks1(s: Tcp, v: Tcp, actions: seq<Action>) {
    if |actions| == 0 then v.fsm == s.fsm && v.verdicts == s.verdicts
    else
      && v.fsm == Step(s.fsm, actions[0]).0
      && v.verdicts == s.verdicts + [Verdict(|s.sent|, actions[0], Step(s.fsm, actions[0]).1)]
  }

  /** What it means for a frame to be handled right. */
  predicate FrameDoesRight(s: Tcp, frame: Text, a: Answer) {
    var (v, r) := a;
    && Asks1(s, v, FrameActions(frame))
    && v.shown == s.shown + Displayed(s, frame)
    && v.name == s.name && SameStream(s, v)
    && v.waitReply == (s.waitReply && !(IsReply(frame) && Admitted(s, frame) && Legible(frame)))
    && if Offends(s, frame) then
         SaysErrAndBye(s, v, Complaint(s, frame).0, Complaint(s, frame).1) && r == Closed
       else
         (if Starts(frame, "ERR") then SaysBye(s, v) else SaysNothing(s, v)) && r == Told(s, frame)
  }

  lemma ChatFrame(s: Tcp, frame: Text)
    requires Working(s.fsm) && Starts(frame, "MSG")
    ensures FrameDoesRight(s, frame, Received(s, frame))
  {
    StepWorking(s.fsm, MessageServer);
    Answerable(s.fsm, MessageServer);
    var v := Consult(s, MessageServer).0;
    AbortSays(v, [], BAD_MSG_STATE);
    AbortSays(v, ReadMsg(s.name, frame).name, BAD_MSG_FORM);
  }

  lemma Answerable(f: Fsm, a: Action)
    requires Working(f) && Submitted(a) && GetSource(a) == Server
    ensures Step(f, a).1 in {Allow, Fail}
  {
    LetThroughExactly(f, a);
  }

  lemma ForbiddenReply(s: Tcp, positive: bool, frame: Text)
    requires FrameActions(frame) == [if positive then ReplyServer else NReplyServer] && Starts(frame, "REPLY")
    requires Step(s.fsm, FrameActions(frame)[0]).1 == Fail
    ensures FrameDoesRight(s, frame, OnReply(s, positive, frame))
  {
    AbortSays(Consult(s, FrameActions(frame)[0]).0, s.name, BAD_REPLY_STATE);
  }

  lemma AdmittedReply(s: Tcp, positive: bool, frame: Text)
    requires FrameActions(frame) == [if positive then ReplyServer else NReplyServer] && Starts(frame, "REPLY")
    requires Step(s.fsm, FrameActions(frame)[0]).1 == Allow
    ensures FrameDoesRight(s, frame, OnReply(s, positive, frame))
  {
    AbortSays(Consult(s, FrameActions(frame)[0]).0, s.name, BAD_REPLY_FORM);
  }

  lemma ReplyIsTaken(s: Tcp, frame: Text)
    requires IsReply(frame)
    ensures Starts(frame, "REPLY") && Received(s, frame) == OnReply(s, FrameActions(frame) == [ReplyServer], frame)
  {
  }

  lemma ReplyFrame(s: Tcp, frame: Text)
    requires Working(s.fsm) && IsReply(frame)
    ensures FrameDoesRight(s, frame, Received(s, frame))
  {
    var positive := FrameActions(frame) == [ReplyServer];
    Answerable(s.fsm, FrameActions(frame)[0]);
    ReplyIsTaken(s, frame);
    if Admitted(s, frame) {
      AdmittedReply(s, positive, frame);
    } else {
      ForbiddenReply(s, positive, frame);
    }
  }

  lemma ErrFrame(s: Tcp, frame: Text)
    requires Working(s.fsm) && Starts(frame, "ERR")
    ensures FrameDoesRight(s, frame, Received(s, frame))
  {
    Answerable(s.fsm, ErrorServer);
    var v := Consult(s, ErrorServer).0;
    AbortSays(v, s.name, BAD_ERR_FORM);
    AbortSays(v, s.name, BAD_ERR_STATE);
    PartSays(Show(v, FromPeerError(ReadErr(frame).name, ReadErr(frame).text)));
  }

  lemma OtherFrame(s: Tcp, frame: Text)
    requires Working(s.fsm) && !Starts(frame, "MSG") && !Starts(frame, "ERR") && !IsReply(frame)
    ensures FrameDoesRight(s, frame, Received(s, frame))
  {
    Answerable(s.fsm, ByeServer);
    AbortSays(Consult(s, ByeServer).0, s.name, BAD_BYE_STATE);
    AbortSays(Show(s, Internal(BAD_COMMAND)), s.name, BAD_COMMAND);
  }

  lemma AnyFrame(s: Tcp, frame: Text)
    requires Working(s.fsm)
    ensures FrameDoesRight(s, frame, Received(s, frame))
  {
    if Starts(frame, "MSG") {
      ChatFrame(s, frame);
    } else if Starts(frame, "ERR") {
      ErrFrame(s, frame);
    } else if IsReply(frame) {
      ReplyFrame(s, frame);
    } else {
      OtherFrame(s, frame);
    }
  }

  /** Every frame of every chunk of every run is handled right. */
  lemma FramesDoRight(max: nat, before: seq<Event>, bytes: Text, strays: Strays, s: Tcp, frame: Text)
    requires Meets(max, before, bytes, strays, s, frame)
    ensures FrameDoesRight(s, frame, Received(s, frame))
  {
    MeetsSane(max, before, bytes, strays, s, frame);
    AnyFrame(s, frame);
  }

  /** An error another program formed with a space-free name, met after logging in or while doing
      so, is shown with its name and text, answered with one BYE line, and ends the connection. */
  lemma ErrorArrives(max: nat, before: seq<Event>, bytes: Text, strays: Strays, s: Tcp, name: Text, content: Text)
    requires Meets(max, before, bytes, strays, s, ErrLine(name, content))
    requires ValidName(name) && Free(name, SP) && ValidContent(content)
    requires Admits(s.fsm, ErrorServer)
    ensures var (v, r) := Received(s, ErrLine(name, content));
      && v.shown == s.shown + [FromPeerError(name, content)] && SaysBye(s, v) && r == Closed
  {
    var frame := ErrLine(name, content);
    FramesDoRight(max, before, bytes, strays, s, frame);
    ErrRoundTripExactly(name, content);
    LetThroughExactly(s.fsm, ErrorServer);
    ErrLineStarts(name, content);
  }

  lemma ErrLineStarts(name: Text, content: Text)
    requires Free(name, SP)
    ensures Starts(ErrLine(name, content), "ERR")
  {
    MsgLineIsWords(name, content);
    KeywordsAreUpper();
    SplitWords4("ERR", "FROM", name, "IS", content);
  }

  // --------------------------------------------------------------------------------- a line

  /** A request in good form and the words it is to be sent in. */
  datatype Wish = Nothing | Wish(kind: Kind, words: seq<Text>)

  function WishOf(name: Text, line: Text): (w: Wish)
    ensures w.Wish? ==> |w.words| > 0
  {
    if AuthorizeLine(line) then
      var parts := Split(Argument(line), SP);
      Wish(Authorize, ["AUTH", parts[0], "AS", parts[2], "USING", parts[1]])
    else if ChannelLine(line) then Wish(JoinChannel, ["JOIN", Argument(line), "AS", name])
    else if ChatLine(line) then Wish(Chat, ["MSG", "FROM", name, "IS", line])
    else Nothing
  }

  predicate Granted(t: Tcp, line: Text) {
    var w := WishOf(t.name, line);
    w.Wish? && Step(t.fsm, ActionOf(w.kind)).1 == Allow
  }

  /** What the user is told about a line that comes to nothing. */
  function Refusal(t: Tcp, line: Text): Line {
    var command, parts := ToUpper(Command(line)), Split(Argument(line), SP);
    if command == "/HELP" then Help
    else if command == "/RENAME" then Internal(BAD_NAME)
    else if |ActionsOfLine(line)| == 0 then Internal(BAD_COMMAND)
    else if Step(t.fsm, ActionsOfLine(line)[0]).1 != Allow then
      Internal(if command == "/AUTH" then NO_AUTH else if command == "/JOIN" then NO_JOIN else NO_MSG)
    else if command == "/AUTH" then Internal(AuthComplaint(parts))
    else if command == "/JOIN" then Internal(JoinComplaint(parts))
    else Internal(BAD_TEXT)
  }

  /** The request has left in these words, and an AUTH or JOIN awaits a reply. */
  predicate Fulfilled(t: Tcp, v: Tcp, line: Text, w: Wish)
    requires w.Wish? && |w.words| > 0
  {
    && |v.sent| == |t.sent| + 1 && t.sent <= v.sent && Speaks(v.sent[|t.sent|], w.kind, w.words)
    && v.waitReply == (t.waitReply || w.kind != Chat)
    && v.name == (if AuthorizeLine(line) then Split(Argument(line), SP)[2] else t.name)
    && v.shown == t.shown
  }

  /** What it means for a line to be handled right. */
  predicate LineDoesRight(t: Tcp, line: Text, a: Answer) {
    var (v, r) := a;
    && SameStream(t, v)
    && if line == "/exit" then
         SaysBye(t, v) && v == t.(sent := v.sent) && r == Closed
       else
         && Asks1(t, v, ActionsOfLine(line))
         && if Granted(t, line) then
              var w := WishOf(t.name, line);
              Fulfilled(t, v, line, w) && r == if w.kind == Chat then ReadyForInput else WaitingForReply
            else if RenameLine(line) then
              v == t.(name := Argument(line)) && r == Indeterminate
            else
              && SaysNothing(t, v) && v.name == t.name && v.waitReply == t.waitReply
              && v.shown == t.shown + [Refusal(t, line)] && r == ReadyForInput
  }

  lemma RequestIsAsked(f: Fsm, a: Action)
    requires Working(f) && UserAction(a)
    ensures Step(f, a).1 in {Allow, Warn}
  {
    LetThroughExactly(f, a);
  }

  lemma AuthLineDoesRight(t: Tcp, line: Text)
    requires Working(t.fsm) && line != "/exit" && ToUpper(Command(line)) == "/AUTH"
    ensures LineDoesRight(t, line, OnAuth(t, Argument(line)))
  {
    var parts := Split(Argument(line), SP);
    CommandsAreNoChat(line);
    RequestIsAsked(t.fsm, AuthorizeUser);
    if AuthorizeLine(line) {
      AuthLineIsWords(parts[0], parts[2], parts[1]);
    }
  }

  lemma JoinLineDoesRight(t: Tcp, line: Text)
    requires Working(t.fsm) && line != "/exit" && ToUpper(Command(line)) == "/JOIN"
    ensures LineDoesRight(t, line, OnJoin(t, Argument(line)))
  {
    CommandsAreNoChat(line);
    RequestIsAsked(t.fsm, JoinUser);
    JoinLineIsWords(Argument(line), t.name);
  }

  lemma TextLineDoesRight(t: Tcp, line: Text)
    requires Working(t.fsm) && line != "/exit"
    requires ToUpper(Command(line)) !in {"/AUTH", "/JOIN", "/RENAME", "/HELP"}
    ensures LineDoesRight(t, line, OnText(t, line))
  {
    RequestIsAsked(t.fsm, MessageUser);
    ChatLineIsWords(t.name, line);
  }

  lemma AnyLine(t: Tcp, line: Text)
    requires Working(t.fsm)
    ensures LineDoesRight(t, line, UserStep(t, line))
  {
    var command := ToUpper(Command(line));
    if line == "/exit" {
      PartSays(t);
    } else if command == "/AUTH" {
      AuthLineDoesRight(t, line);
    } else if command == "/JOIN" {
      JoinLineDoesRight(t, line);
    } else if command !in {"/RENAME", "/HELP"} {
      TextLineDoesRight(t, line);
    } else {
      CommandsAreNoChat(line);
    }
  }
}
