/** What a line from the user does to the UDP client, and what the loop makes of every event. */
module UdpLines {
  import opened Octets
  import opened Grammar
  import opened UdpRecords
  import opened Session
  import opened Common
  import opened CommandLines
  import opened UdpMachine
  import opened UdpSession
  import opened UdpEffects

  // ------------------------------------------------------------------------- kinds of line

  /** A request in good form: the kind of message, the action it stands for, and what it is to say
      in the name of `name`. */
  datatype Wish = Nothing | Wish(kind: Kind, fields: seq<Text>)

  function WishOf(name: Text, line: Text): Wish {
    if AuthorizeLine(line) then
      var parts := Split(Argument(line), SP);
      Wish(Authorize, [parts[0], parts[2], parts[1]])
    else if ChannelLine(line) then Wish(JoinChannel, [Argument(line), name])
    else if ChatLine(line) then Wish(Chat, [name, line])
    else Nothing
  }

  /** The wish is granted. */
  predicate Granted(u: Udp, line: Text) {
    var w := WishOf(u.name, line);
    w.Wish? && Step(u.fsm, ActionOf(w.kind)).1 == Allow
  }

  /** What the user is told about a line that comes to nothing. */
  function Refusal(u: Udp, line: Text): Line {
    var command, parts := ToUpper(Command(line)), Split(Argument(line), SP);
    if command == "/HELP" then Help
    else if command == "/RENAME" then Internal(BAD_NAME)
    else if |ActionsOfLine(line)| == 0 then Internal(BAD_COMMAND)
    else if Step(u.fsm, ActionsOfLine(line)[0]).1 != Allow then
      Internal(if command == "/AUTH" then NO_AUTH else if command == "/JOIN" then NO_JOIN else NO_MSG)
    else if command == "/AUTH" then Internal(if |parts| == 3 then BAD_AUTH else BAD_FORM)
    else if command == "/JOIN" then Internal(if |parts| == 1 then BAD_JOIN else BAD_FORM)
    else Internal(BAD_CONTENT)
  }

  // ------------------------------------------------------------------------- what they do

  /** Nothing but the session and the terminal. */
  predicate Untouched(u: Udp, v: Udp) {
    && v.link == u.link && v.name == u.name && v.received == u.received && v.receipts == u.receipts
    && v.waitReply == u.waitReply && v.awaitReply == u.awaitReply
  }

  /** The request has left, is waited for, and an AUTH or JOIN has a reply awaited from now on. */
  predicate Fulfilled(u: Udp, v: Udp, line: Text, kind: Kind, fields: seq<Text>) {
    && Posts(u.link, v.link, kind, fields) && v.link.waiting
    && v.link.awaitingOver == u.link.awaitingOver && v.link.errorSent == u.link.errorSent
    && v.link.errorPending == u.link.errorPending && v.link.errorText == u.link.errorText
    && v.waitReply == (kind != Chat) && v.awaitReply == (if kind == Chat then NONE else u.link.next)
    && v.name == (if kind == Authorize && |fields| == 3 then fields[1] else u.name)
    && v.shown == u.shown && v.received == u.received && v.receipts == u.receipts
  }

  /** The client has said BYE and waits for its CONFIRM. */
  predicate Leaving(u: Udp, v: Udp) {
    && Posts(u.link, v.link, Farewell, []) && v.link.waiting && v.link.awaitingOver
    && v.link.errorSent == u.link.errorSent
    && v.link.errorPending == u.link.errorPending && v.link.errorText == u.link.errorText
    && v == u.(link := v.link)
  }

  /** What it means for a line to be handled right. */
  predicate LineDoesRight(u: Udp, line: Text, a: Answer) {
    var (v, r) := a;
    if line == "/exit" then Leaving(u, v) && r == WaitingForConfirmation
    else if u.link.errorPending then
      Objected(u, v, u.link.errorText) && v == u.(link := v.link) && r == WaitingForConfirmation
    else
      && Asked(u, v, ActionsOfLine(line))
      && if Granted(u, line) then
           var w := WishOf(u.name, line);
           Fulfilled(u, v, line, w.kind, w.fields) && r == WaitingForConfirmation
         else if RenameLine(line) then
           v == u.(name := Argument(line)) && r == Indeterminate
         else
           Untouched(u, v) && v.shown == u.shown + [Refusal(u, line)] && r == ReadyForInput
  }

  lemma CredentialsFree(parts: seq<Text>)
    requires ValidCredentials(parts)
    ensures AllFree([parts[0], parts[2], parts[1]], NUL)
  {
    WordsAreClean(parts[0], 20);
    WordsAreClean(parts[1], 128);
    PrintableIsClean(parts[2]);
  }

  /** A line that reaches the commands. */
  predicate Plain(u: Udp, line: Text) {
    line != "/exit" && !u.link.errorPending && Held(u.fsm) && Clean(u.name)
  }

  lemma GrantedAuthDoesRight(u: Udp, line: Text)
    requires Plain(u, line) && AuthorizeLine(line) && Step(u.fsm, AuthorizeUser).1 == Allow
    ensures LineDoesRight(u, line, OnAuth(u, Argument(line)))
  {
    var parts := Split(Argument(line), SP);
    CredentialsFree(parts);
    AskPosts(u.link, Authorize, [parts[0], parts[2], parts[1]]);
  }

  lemma AuthLineDoesRight(u: Udp, line: Text)
    requires Plain(u, line) && ToUpper(Command(line)) == "/AUTH"
    ensures LineDoesRight(u, line, OnAuth(u, Argument(line)))
  {
    if AuthorizeLine(line) && Step(u.fsm, AuthorizeUser).1 == Allow {
      GrantedAuthDoesRight(u, line);
    } else {
      CommandsAreNoChat(line);
      StepIsProper(u.fsm, AuthorizeUser);
    }
  }

  lemma GrantedJoinDoesRight(u: Udp, line: Text)
    requires Plain(u, line) && ChannelLine(line) && Step(u.fsm, JoinUser).1 == Allow
    ensures LineDoesRight(u, line, OnJoin(u, Argument(line)))
  {
    var fields := [Argument(line), u.name];
    JoinIsRequested(u, line);
    assert Posts(u.link, Ask(u.link, JoinChannel, fields), JoinChannel, fields) by {
      WordsAreClean(Argument(line), 20);
      AskPosts(u.link, JoinChannel, fields);
    }
    assert WishOf(u.name, line) == Wish(JoinChannel, fields);
  }

  lemma JoinIsRequested(u: Udp, line: Text)
    requires ChannelLine(line) && Step(u.fsm, JoinUser).1 == Allow
    ensures ValidId(Argument(line))
    ensures OnJoin(u, Argument(line))
      == Requested(Consult(u, JoinUser).0, JoinChannel, [Argument(line), u.name])
  {
    var parts := Split(Argument(line), SP);
    assert parts == [Argument(line)] by { JoinSplit(Argument(line), SP); }
  }

  lemma JoinLineDoesRight(u: Udp, line: Text)
    requires Plain(u, line) && ToUpper(Command(line)) == "/JOIN"
    ensures LineDoesRight(u, line, OnJoin(u, Argument(line)))
  {
    if ChannelLine(line) && Step(u.fsm, JoinUser).1 == Allow {
      GrantedJoinDoesRight(u, line);
    } else {
      CommandsAreNoChat(line);
      StepIsProper(u.fsm, JoinUser);
    }
  }

  /** No command, or none the client knows. */
  predicate TextLine(line: Text) {
    ToUpper(Command(line)) !in {"/AUTH", "/JOIN", "/RENAME", "/HELP"}
  }

  lemma GrantedTextDoesRight(u: Udp, line: Text)
    requires Plain(u, line) && TextLine(line) && ChatLine(line) && Step(u.fsm, MessageUser).1 == Allow
    ensures LineDoesRight(u, line, OnText(u, line))
  {
    PrintableIsClean(line);
    AskPosts(u.link, Chat, [u.name, line]);
  }

  lemma TextLineDoesRight(u: Udp, line: Text)
    requires Plain(u, line) && TextLine(line)
    ensures LineDoesRight(u, line, OnText(u, line))
  {
    if ChatLine(line) && Step(u.fsm, MessageUser).1 == Allow {
      GrantedTextDoesRight(u, line);
    } else {
      StepIsProper(u.fsm, MessageUser);
    }
  }

  lemma OddLineDoesRight(u: Udp, line: Text)
    requires Clean(u.name) && (line == "/exit" || u.link.errorPending) && Free(u.link.errorText, NUL)
    ensures LineDoesRight(u, line, UserStep(u, line))
  {
    if line == "/exit" {
      LeavePosts(u.link);
    } else {
      ProtestObjects(u, u.link.errorText);
    }
  }

  lemma LinesDoRight(u: Udp, line: Text)
    requires Held(u.fsm) && Clean(u.name) && Free(u.link.errorText, NUL)
    ensures LineDoesRight(u, line, UserStep(u, line))
  {
    var command := ToUpper(Command(line));
    if line == "/exit" || u.link.errorPending {
      OddLineDoesRight(u, line);
    } else if command == "/AUTH" {
      AuthLineDoesRight(u, line);
    } else if command == "/JOIN" {
      JoinLineDoesRight(u, line);
    } else if command !in {"/RENAME", "/HELP"} {
      TextLineDoesRight(u, line);
    } else {
      CommandsAreNoChat(line);
    }
  }
}
