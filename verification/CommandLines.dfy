/** The lines a user can type, by what they ask for and whether they are in good form. */
module CommandLines {
  import opened Octets
  import opened Grammar
  import opened Session
  import opened Common

  /** An `/auth` whose argument is accepted, and one whose argument is not. */
  predicate AuthorizeLine(line: Text) {
    && line != "/exit" && ToUpper(Command(line)) == "/AUTH"
    && ValidCredentials(Split(Argument(line), SP))
  }

  predicate TypoLine(line: Text) {
    && line != "/exit" && ToUpper(Command(line)) == "/AUTH"
    && !ValidCredentials(Split(Argument(line), SP))
  }

  predicate ChannelLine(line: Text) {
    && line != "/exit" && ToUpper(Command(line)) == "/JOIN"
    && var parts := Split(Argument(line), SP); |parts| == 1 && ValidId(parts[0])
  }

  predicate RenameLine(line: Text) {
    line != "/exit" && ToUpper(Command(line)) == "/RENAME" && ValidName(Argument(line))
  }

  predicate ChatLine(line: Text) {
    ValidContent(line) && line[0] != '/'
  }

  lemma CommandsAreNoChat(line: Text)
    requires ToUpper(Command(line)) in {"/AUTH", "/JOIN", "/RENAME", "/HELP"}
    ensures !ChatLine(line)
  {
    var command := Command(line);
    assert |command| > 0 && ToUpper(command)[0] == Upper(command[0]);
    assert command[0] == line[0];
  }

  lemma ChatIsNoCommand(line: Text)
    requires ChatLine(line)
    ensures !AuthorizeLine(line) && !ChannelLine(line) && !RenameLine(line) && line != "/exit"
  {
    assert "/exit"[0] == '/';
    if ToUpper(Command(line)) in {"/AUTH", "/JOIN", "/RENAME", "/HELP"} {
      CommandsAreNoChat(line);
    }
  }

  /** The action submitted before an AUTH, JOIN or MSG is sent. */
  function ActionOf(kind: Kind): Action {
    match kind
    case Authorize => AuthorizeUser
    case JoinChannel => JoinUser
    case _ => MessageUser
  }

  /** The action a line stands for, whether or not it is in good form. */
  function ActionsOfLine(line: Text): seq<Action> {
    var command := ToUpper(Command(line));
    if command == "/AUTH" then [AuthorizeUser]
    else if command == "/JOIN" then [JoinUser]
    else if command in {"/RENAME", "/HELP"} || (|line| > 0 && line[0] == '/') then []
    else [MessageUser]
  }
}
