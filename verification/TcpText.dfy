/** The TCP lines: words and a free text separated by single spaces, ended by CR LF. */
module TcpText {
  import opened Octets
  import opened Grammar
  import opened Common

  const BAD_ID := "Invalid ID format"
  const BAD_SECRET := "Invalid secret format"
  const BAD_TEXT := "Invalid content format"
  const BAD_REPLY := "Invalid Reply Message Format"
  const BAD_MSG := "Invalid MSG Format"
  const BAD_ERR := "Invalid ERR Format"
  const BAD_USER := "Invalid Username Format Received"

  // ------------------------------------------------------------------------------- printing

  function AuthLine(id: Text, name: Text, secret: Text): Text {
    "AUTH " + id + " AS " + name + " USING " + secret
  }

  function JoinLine(channel: Text, name: Text): Text {
    "JOIN " + channel + " AS " + name
  }

  function MsgLine(name: Text, content: Text): Text {
    "MSG FROM " + name + " IS " + content
  }

  function ErrLine(name: Text, content: Text): Text {
    "ERR FROM " + name + " IS " + content
  }

  const BYE_LINE: Text := "BYE"

  // ------------------------------------------------------------------------------- parsing

  /** What a validator hands back. `Broken` is the removal of the last character of an empty
      string, which has no defined outcome. */
  datatype Reading = Reading(text: Text, name: Text, ok: bool) | Broken

  function ReadReply(line: Text): Reading {
    var parts := Split(line, SP);
    if |parts| < 3 then Reading(BAD_REPLY, [], false)
    else if ToUpper(parts[0]) != "REPLY" || ToUpper(parts[1]) !in {"OK", "NOK"} || ToUpper(parts[2]) != "IS" then
      Reading(BAD_REPLY, [], false)
    else if |parts| == 3 then Broken
    else
      var content := Join(parts[3..], SP);
      Reading(content, [], ValidContent(content))
  }

  function ReadMsg(own: Text, line: Text): (r: Reading)
    ensures r.Reading?
  {
    var parts := Split(line, SP);
    if |parts| < 5 then Reading(BAD_MSG, own, false)
    else if ToUpper(parts[0]) != "MSG" || ToUpper(parts[1]) != "FROM" || ToUpper(parts[3]) != "IS" then
      Reading(BAD_MSG, own, false)
    else if !ValidName(ToUpper(parts[2])) then Reading(BAD_USER, own, false)
    else
      var content := Join(parts[4..], SP);
      Reading(content, parts[2], ValidContent(content))
  }

  function ReadErr(line: Text): (r: Reading)
    ensures r.Reading?
  {
    var parts := Split(line, SP);
    if |parts| < 5 then Reading(BAD_ERR, " ", false)
    else if ToUpper(parts[0]) != "ERR" || ToUpper(parts[1]) != "FROM" || ToUpper(parts[3]) != "IS" then
      Reading(BAD_ERR, " ", false)
    else if !ValidName(parts[2]) then Reading(BAD_USER, " ", false)
    else
      var content := Join(parts[4..], SP);
      Reading(content, parts[2], ValidContent(content))
  }

  // -------------------------------------------------------------------- parse inverts print

  /** Words laid out one space apart. */
  function Words3(a: Text, b: Text, c: Text, rest: Text): Text {
    a + [SP] + (b + [SP] + (c + [SP] + rest))
  }

  function Words4(a: Text, b: Text, c: Text, d: Text, rest: Text): Text {
    a + [SP] + Words3(b, c, d, rest)
  }

  lemma SplitWord(w: Text, rest: Text)
    requires Free(w, SP)
    ensures Split(w + [SP] + rest, SP) == [w] + Split(rest, SP)
  {
    SplitConcat(w, rest, SP);
    SplitFree(w, SP);
  }

  lemma SplitWords3(a: Text, b: Text, c: Text, rest: Text)
    requires Free(a, SP) && Free(b, SP) && Free(c, SP)
    ensures Split(Words3(a, b, c, rest), SP) == [a, b, c] + Split(rest, SP)
  {
    var tail := c + [SP] + rest;
    SplitWord(c, rest);
    SplitWord(b, tail);
    SplitWord(a, b + [SP] + tail);
  }

  lemma SplitWords4(a: Text, b: Text, c: Text, d: Text, rest: Text)
    requires Free(a, SP) && Free(b, SP) && Free(c, SP) && Free(d, SP)
    ensures Split(Words4(a, b, c, d, rest), SP) == [a, b, c, d] + Split(rest, SP)
  {
    SplitWords3(b, c, d, rest);
    SplitWord(a, Words3(b, c, d, rest));
  }

  /** Whatever the keywords' letter case, the content comes back untouched, spaces and all, and is
      accepted exactly when it is valid. */
  lemma ReplyParses(a: Text, b: Text, c: Text, content: Text)
    requires ToUpper(a) == "REPLY" && ToUpper(b) in {"OK", "NOK"} && ToUpper(c) == "IS"
    ensures ReadReply(Words3(a, b, c, content)) == Reading(content, [], ValidContent(content))
  {
    KeywordIsFree(a, "REPLY");
    KeywordIsFree(b, ToUpper(b));
    KeywordIsFree(c, "IS");
    SplitWords3(a, b, c, content);
    assert ([a, b, c] + Split(content, SP))[3..] == Split(content, SP);
    JoinSplit(content, SP);
  }

  lemma MsgParses(own: Text, a: Text, b: Text, name: Text, c: Text, content: Text)
    requires ToUpper(a) == "MSG" && ToUpper(b) == "FROM" && ToUpper(c) == "IS"
    requires ValidName(name) && Free(name, SP)
    ensures ReadMsg(own, Words4(a, b, name, c, content)) == Reading(content, name, ValidContent(content))
  {
    KeywordIsFree(a, "MSG");
    KeywordIsFree(b, "FROM");
    KeywordIsFree(c, "IS");
    SplitWords4(a, b, name, c, content);
    assert ([a, b, name, c] + Split(content, SP))[4..] == Split(content, SP);
    UpperKeepsNames(name);
    JoinSplit(content, SP);
  }

  lemma ErrParses(a: Text, b: Text, name: Text, c: Text, content: Text)
    requires ToUpper(a) == "ERR" && ToUpper(b) == "FROM" && ToUpper(c) == "IS"
    requires ValidName(name) && Free(name, SP)
    ensures ReadErr(Words4(a, b, name, c, content)) == Reading(content, name, ValidContent(content))
  {
    KeywordIsFree(a, "ERR");
    KeywordIsFree(b, "FROM");
    KeywordIsFree(c, "IS");
    SplitWords4(a, b, name, c, content);
    assert ([a, b, name, c] + Split(content, SP))[4..] == Split(content, SP);
    JoinSplit(content, SP);
  }

  /** Peeling words off a split line. */
  lemma Peel(parts: seq<Text>)
    requires |parts| >= 2
    ensures Join(parts, SP) == parts[0] + [SP] + Join(parts[1..], SP)
  {
    JoinHead(parts[0], parts[1..], SP);
    assert [parts[0]] + parts[1..] == parts;
  }

  lemma Peel3(parts: seq<Text>)
    requires |parts| >= 4
    ensures Join(parts, SP) == Words3(parts[0], parts[1], parts[2], Join(parts[3..], SP))
  {
    Peel(parts);
    Peel(parts[1..]);
    Peel(parts[2..]);
    assert parts[1..][1..] == parts[2..] && parts[2..][1..] == parts[3..];
  }

  lemma Peel4(parts: seq<Text>)
    requires |parts| >= 5
    ensures Join(parts, SP) == Words4(parts[0], parts[1], parts[2], parts[3], Join(parts[4..], SP))
  {
    Peel(parts);
    Peel3(parts[1..]);
    assert parts[1..][3..] == parts[4..];
  }

  /** Conversely, a line accepted as a reply is laid out like one. */
  lemma ReplyPrints(line: Text) returns (a: Text, b: Text, c: Text)
    requires var r := ReadReply(line); r.Reading? && r.ok
    ensures ToUpper(a) == "REPLY" && ToUpper(b) in {"OK", "NOK"} && ToUpper(c) == "IS"
    ensures line == Words3(a, b, c, ReadReply(line).text) && ValidContent(ReadReply(line).text)
  {
    var parts := Split(line, SP);
    a, b, c := parts[0], parts[1], parts[2];
    JoinSplit(line, SP);
    Peel3(parts);
  }

  lemma MsgPrints(own: Text, line: Text) returns (a: Text, b: Text, c: Text)
    requires ReadMsg(own, line).ok
    ensures ToUpper(a) == "MSG" && ToUpper(b) == "FROM" && ToUpper(c) == "IS"
    ensures var r := ReadMsg(own, line);
      line == Words4(a, b, r.name, c, r.text) && ValidName(r.name) && Free(r.name, SP) && ValidContent(r.text)
  {
    var parts := Split(line, SP);
    a, b, c := parts[0], parts[1], parts[3];
    SplitPieces(line, SP);
    UpperKeepsNames(parts[2]);
    JoinSplit(line, SP);
    Peel4(parts);
  }

  /** The name reported for a line that is no message is the client's own, unless the line is laid
      out like one and only its content is at fault: then it is the sender's. */
  lemma MsgNamePrints(own: Text, line: Text) returns (a: Text, b: Text, c: Text, content: Text)
    requires ReadMsg(own, line).name != own
    ensures ToUpper(a) == "MSG" && ToUpper(b) == "FROM" && ToUpper(c) == "IS"
    ensures var name := ReadMsg(own, line).name;
      line == Words4(a, b, name, c, content) && ValidName(name) && Free(name, SP)
  {
    var parts := Split(line, SP);
    a, b, c, content := parts[0], parts[1], parts[3], Join(parts[4..], SP);
    SplitPieces(line, SP);
    UpperKeepsNames(parts[2]);
    JoinSplit(line, SP);
    Peel4(parts);
  }

  lemma ErrPrints(line: Text) returns (a: Text, b: Text, c: Text)
    requires ReadErr(line).ok
    ensures ToUpper(a) == "ERR" && ToUpper(b) == "FROM" && ToUpper(c) == "IS"
    ensures var r := ReadErr(line);
      line == Words4(a, b, r.name, c, r.text) && ValidName(r.name) && Free(r.name, SP) && ValidContent(r.text)
  {
    var parts := Split(line, SP);
    a, b, c := parts[0], parts[1], parts[3];
    SplitPieces(line, SP);
    JoinSplit(line, SP);
    Peel4(parts);
  }

  lemma MsgLineIsWords(name: Text, content: Text)
    ensures MsgLine(name, content) == Words4("MSG", "FROM", name, "IS", content)
    ensures ErrLine(name, content) == Words4("ERR", "FROM", name, "IS", content)
  {
  }

  lemma KeywordsAreUpper()
    ensures ToUpper("MSG") == "MSG" && ToUpper("FROM") == "FROM" && ToUpper("IS") == "IS"
    ensures ToUpper("ERR") == "ERR"
  {
  }

  /** A message formed from a valid name and valid content reads back as those two if and only if
      the name has no space in it; the name rule does not exclude one. */
  lemma MsgRoundTripExactly(own: Text, name: Text, content: Text)
    requires ValidName(name) && ValidContent(content)
    ensures ReadMsg(own, MsgLine(name, content)) == Reading(content, name, true) <==> Free(name, SP)
  {
    MsgLineIsWords(name, content);
    KeywordsAreUpper();
    if Free(name, SP) {
      MsgParses(own, "MSG", "FROM", name, "IS", content);
    } else if ReadMsg(own, MsgLine(name, content)) == Reading(content, name, true) {
      var a, b, c := MsgPrints(own, MsgLine(name, content));
    }
  }

  lemma ErrRoundTripExactly(name: Text, content: Text)
    requires ValidName(name) && ValidContent(content)
    ensures ReadErr(ErrLine(name, content)) == Reading(content, name, true) <==> Free(name, SP)
  {
    MsgLineIsWords(name, content);
    KeywordsAreUpper();
    if Free(name, SP) {
      ErrParses("ERR", "FROM", name, "IS", content);
    } else if ReadErr(ErrLine(name, content)) == Reading(content, name, true) {
      var a, b, c := ErrPrints(ErrLine(name, content));
    }
  }

  // --------------------------------------------------------------------- the validator, in place

  class TCPMessageValidator {
    var displayName: Text

    constructor ()
      ensures displayName == []
    {
      displayName := [];
    }

    /** The parts from `first` on, each followed by a space, and the last space removed. */
    method Glue(parts: seq<Text>, first: nat) returns (content: Text)
      requires first < |parts|
      ensures content == Join(parts[first..], SP)
    {
      content := [];
      var i := first;
      while i < |parts|
        invariant first <= i <= |parts|
        invariant if i == first then content == [] else content == Join(parts[first..i], SP) + [SP]
      {
        assert parts[first..i + 1][..i - first] == parts[first..i];
        content := content + (parts[i] + [SP]);
        i := i + 1;
      }
      assert parts[first..i] == parts[first..];
      content := content[..|content| - 1];
    }

    method AuthorizeValidate(message: Text) returns (response: Text, ok: bool)
      modifies this
      ensures var parts := Split(message, SP);
        && (ok <==> ValidCredentials(parts))
        && (ok ==> response == AuthLine(parts[0], parts[2], parts[1]) + CRLF && displayName == parts[2])
        && (!ok ==> response == AuthComplaint(parts) && displayName == old(displayName))
    {
      var parts := SplitMessage(message);
      if |parts| != 3 {
        return BAD_FORM, false;
      }
      var a := ValidateWord(parts[0], 20);
      if !a {
        return BAD_ID, false;
      }
      var b := ValidateWord(parts[1], 128);
      if !b {
        return BAD_SECRET, false;
      }
      var c := ValidateName(parts[2]);
      if !c {
        return BAD_NAME, false;
      }
      displayName := parts[2];
      return AuthLine(parts[0], parts[2], parts[1]) + CRLF, true;
    }

    method JoinValidate(message: Text) returns (response: Text, ok: bool)
      ensures ok <==> ValidChannel(Split(message, SP))
      ensures response == if ok then JoinLine(message, displayName) + CRLF else JoinComplaint(Split(message, SP))
    {
      var parts := SplitMessage(message);
      if |parts| != 1 {
        return BAD_FORM, false;
      }
      var a := ValidateWord(parts[0], 20);
      if !a {
        return BAD_ID, false;
      }
      JoinSplit(message, SP);
      return JoinLine(parts[0], displayName) + CRLF, true;
    }

    method MessageValidate(message: Text) returns (response: Text, ok: bool)
      ensures ok <==> ValidContent(message)
      ensures response == if ok then MsgLine(displayName, message) + CRLF else BAD_TEXT
    {
      ok := ValidateContent(message);
      response := if ok then MsgLine(displayName, message) + CRLF else BAD_TEXT;
    }

    method Rename(name: Text) returns (ok: bool)
      modifies this
      ensures ok <==> ValidName(name)
      ensures displayName == if ok then name else old(displayName)
    {
      ok := ValidateName(name);
      if ok {
        displayName := name;
      }
    }

    method ValidateReply(message: Text) returns (r: Reading)
      ensures r == ReadReply(message)
    {
      var parts := SplitMessage(message);
      if |parts| < 3 {
        return Reading(BAD_REPLY, [], false);
      }
      var a := Uppercase(parts[0]);
      var b := Uppercase(parts[1]);
      var c := Uppercase(parts[2]);
      if a != "REPLY" || (b != "OK" && b != "NOK") || c != "IS" {
        return Reading(BAD_REPLY, [], false);
      }
      if |parts| == 3 {
        return Broken;
      }
      var content := Glue(parts, 3);
      var ok := ValidateContent(content);
      return Reading(content, [], ok);
    }

    method ValidateMessageServer(message: Text) returns (r: Reading)
      ensures r == ReadMsg(displayName, message)
    {
      var parts := SplitMessage(message);
      if |parts| < 5 {
        return Reading(BAD_MSG, displayName, false);
      }
      var username := parts[2];
      var a := Uppercase(parts[0]);
      var b := Uppercase(parts[1]);
      var u := Uppercase(parts[2]);
      var c := Uppercase(parts[3]);
      if a != "MSG" || b != "FROM" || c != "IS" {
        return Reading(BAD_MSG, displayName, false);
      }
      var named := ValidateName(u);
      if !named {
        return Reading(BAD_USER, displayName, false);
      }
      var content := Glue(parts, 4);
      var ok := ValidateContent(content);
      return Reading(content, username, ok);
    }

    method ValidateErrorServer(message: Text) returns (r: Reading)
      ensures r == ReadErr(message)
    {
      var parts := SplitMessage(message);
      if |parts| < 5 {
        return Reading(BAD_ERR, " ", false);
      }
      var a := Uppercase(parts[0]);
      var b := Uppercase(parts[1]);
      var c := Uppercase(parts[3]);
      if a != "ERR" || b != "FROM" || c != "IS" {
        return Reading(BAD_ERR, " ", false);
      }
      var named := ValidateName(parts[2]);
      if !named {
        return Reading(BAD_USER, " ", false);
      }
      var content := Glue(parts, 4);
      var ok := ValidateContent(content);
      return Reading(content, parts[2], ok);
    }
  }

  predicate ValidChannel(parts: seq<Text>) {
    |parts| == 1 && ValidId(parts[0])
  }

  function AuthComplaint(parts: seq<Text>): Text {
    if |parts| != 3 then BAD_FORM
    else if !ValidId(parts[0]) then BAD_ID
    else if !ValidSecret(parts[1]) then BAD_SECRET
    else BAD_NAME
  }

  /** A rejected `/auth` is blamed on the first thing wrong with it. */
  lemma FirstFaultIsNamed(parts: seq<Text>)
    requires !ValidCredentials(parts)
    ensures AuthComplaint(parts) == BAD_FORM <==> |parts| != 3
    ensures AuthComplaint(parts) == BAD_ID <==> |parts| == 3 && !ValidId(parts[0])
    ensures AuthComplaint(parts) == BAD_SECRET <==> |parts| == 3 && ValidId(parts[0]) && !ValidSecret(parts[1])
    ensures AuthComplaint(parts) == BAD_NAME <==> |parts| == 3 && ValidId(parts[0]) && ValidSecret(parts[1])
  {
    assert |BAD_FORM| == 22 && |BAD_ID| == 17 && |BAD_SECRET| == 21 && |BAD_NAME| == 27;
  }

  function JoinComplaint(parts: seq<Text>): Text {
    if |parts| != 1 then BAD_FORM else BAD_ID
  }
}
