/** The UDP records: a code octet, a big-endian identifier, NUL-terminated fields. */
module UdpRecords {
  import opened Octets
  import opened Grammar

  const BAD_AUTH: Text := "ERROR Invalid username, display name or secret"
  const BAD_JOIN: Text := "ERROR Invalid channel or display name while joining"
  const BAD_CONTENT: Text := "ERROR Invalid content"

  const CONFIRM: Octet := '\0'
  const REPLY: Octet := 1 as char
  const AUTH: Octet := 2 as char
  const JOIN: Octet := 3 as char
  const MSG: Octet := 4 as char
  const ERR: Octet := 254 as char
  const BYE: Octet := 255 as char

  function Header(code: Octet, id: MsgId): Text {
    [code] + Encode16(id)
  }

  function IdOf(d: Text): MsgId
    requires |d| >= 3
  {
    Decode16(d[1], d[2])
  }

  /** A record: the header, then every field followed by a NUL. */
  function Record(code: Octet, id: MsgId, fields: seq<Text>): (d: Text) {
    Header(code, id) + Terminated(fields)
  }

  function Terminated(fields: seq<Text>): Text {
    if |fields| == 0 then []
    else Terminated(fields[..|fields| - 1]) + fields[|fields| - 1] + [NUL]
  }

  /** The NUL-terminated words of a payload; what follows the last NUL is dropped. */
  function Fields(payload: Text): seq<Text> {
    var pieces := Split(payload, NUL);
    pieces[..|pieces| - 1]
  }

  function Tail(payload: Text): Text {
    var pieces := Split(payload, NUL);
    pieces[|pieces| - 1]
  }

  // ------------------------------------------------------------------ parse inverts print

  lemma HeaderRoundTrip(code: Octet, id: MsgId, fields: seq<Text>)
    ensures var d := Record(code, id, fields);
      |d| >= 3 && d[0] == code && IdOf(d) == id && d[3..] == Terminated(fields)
  {
    Decode16InvertsEncode16(id);
    assert |Header(code, id)| == 3;
  }

  lemma {:induction false} FieldsOfTerminated(fields: seq<Text>, tail: Text)
    requires AllFree(fields, NUL) && Free(tail, NUL)
    ensures Split(Terminated(fields) + tail, NUL) == fields + [tail]
  {
    if fields == [] {
      assert Terminated(fields) + tail == tail;
      SplitFree(tail, NUL);
    } else {
      var init, last := fields[..|fields| - 1], fields[|fields| - 1];
      var front := Terminated(init) + last;
      assert Split(front, NUL) == init + [last] by { FieldsOfTerminated(init, last); }
      assert Split(tail, NUL) == [tail] by { SplitFree(tail, NUL); }
      assert Split(front + [NUL] + tail, NUL) == init + [last] + [tail] by { SplitConcat(front, tail, NUL); }
      assert init + [last] == fields;
    }
  }

  /** Any list of NUL-free words is recovered, whatever unterminated octets follow. */
  lemma FieldsInvertTerminated(fields: seq<Text>, tail: Text)
    requires AllFree(fields, NUL) && Free(tail, NUL)
    ensures Fields(Terminated(fields) + tail) == fields
    ensures Tail(Terminated(fields) + tail) == tail
  {
    FieldsOfTerminated(fields, tail);
  }

  lemma {:induction false} JoinIsTerminated(pieces: seq<Text>, tail: Text)
    ensures Join(pieces + [tail], NUL) == Terminated(pieces) + tail
  {
    var all := pieces + [tail];
    if pieces == [] {
      assert all == [tail];
    } else {
      var init, last := pieces[..|pieces| - 1], pieces[|pieces| - 1];
      JoinIsTerminated(init, last);
      assert all[..|all| - 1] == init + [last];
    }
  }

  /** And every payload is such a list with such a tail, in one way only. */
  lemma TerminatedInvertsFields(payload: Text)
    ensures Terminated(Fields(payload)) + Tail(payload) == payload
    ensures AllFree(Fields(payload), NUL) && Free(Tail(payload), NUL)
  {
    var pieces := Split(payload, NUL);
    SplitPieces(payload, NUL);
    JoinSplit(payload, NUL);
    JoinIsTerminated(Fields(payload), Tail(payload));
    assert Fields(payload) + [Tail(payload)] == pieces;
  }

  /** What the octets of a datagram say: a code, an identifier high octet first, and fields each
      ended by a NUL, with nothing after the last. */
  predicate Spells(d: Text, code: int, id: int, fields: seq<Text>) {
    && |d| >= 3 && IsOctet(d[1]) && IsOctet(d[2])
    && d[0] as int == code && d[1] as int * 256 + d[2] as int == id
    && Fields(d[3..]) == fields && Tail(d[3..]) == []
  }

  lemma IdOnTheWire(d: Text)
    requires |d| >= 3 && IsOctet(d[1]) && IsOctet(d[2])
    ensures IdOf(d) as int == d[1] as int * 256 + d[2] as int
  {
  }

  lemma RecordSpells(code: Octet, id: MsgId, fields: seq<Text>)
    requires AllFree(fields, NUL)
    ensures Spells(Record(code, id, fields), code as int, id, fields)
  {
    HeaderRoundTrip(code, id, fields);
    FieldsInvertTerminated(fields, []);
    assert Terminated(fields) + [] == Terminated(fields);
  }

  // ------------------------------------------------------------------------------- checking

  /** What a payload must contain, by the message it belongs to. */
  datatype Layout = OnReply | OnMsg | OnErr

  predicate WellFormed(layout: Layout, fields: seq<Text>) {
    match layout
    case OnReply => |fields| == 1 && ValidContent(fields[0])
    case _ => |fields| == 2 && ValidName(fields[0]) && ValidContent(fields[1])
  }

  predicate Readable(layout: Layout, payload: Text) {
    WellFormed(layout, Fields(payload))
  }

  const INVALID: Text := "Invalid Arguments Provided"

  /** A record printed from NUL-free fields carries its code and identifier, parses back to
      exactly those fields, and is accepted exactly when they are the ones its layout asks for. */
  lemma ParseInvertsPrint(layout: Layout, code: Octet, id: MsgId, fields: seq<Text>)
    requires AllFree(fields, NUL)
    ensures var d := Record(code, id, fields);
      && |d| >= 3 && d[0] == code && IdOf(d) == id && Fields(d[3..]) == fields
      && (Readable(layout, d[3..]) <==> WellFormed(layout, fields))
  {
    HeaderRoundTrip(code, id, fields);
    FieldsInvertTerminated(fields, []);
    assert Terminated(fields) + [] == Terminated(fields);
  }

  lemma WellFormedIsClean(layout: Layout, fields: seq<Text>)
    requires WellFormed(layout, fields)
    ensures AllFree(fields, NUL)
  {
  }

  /** In particular a chat message or error with a valid name and content is read back whole. */
  lemma MessageRoundTrip(code: Octet, id: MsgId, name: Text, content: Text)
    requires code in {MSG, ERR} && ValidName(name) && ValidContent(content)
    ensures var d := Record(code, id, [name, content]);
      && |d| >= 3 && d[0] == code && IdOf(d) == id
      && Readable(if code == MSG then OnMsg else OnErr, d[3..]) && Fields(d[3..]) == [name, content]
  {
    WellFormedIsClean(OnMsg, [name, content]);
    ParseInvertsPrint(if code == MSG then OnMsg else OnErr, code, id, [name, content]);
  }

  /** Conversely a readable datagram is the print of what was read, up to an ignored tail. */
  lemma PrintInvertsParse(layout: Layout, d: Text)
    requires |d| >= 3 && IsOctet(d[1]) && IsOctet(d[2]) && Readable(layout, d[3..])
    ensures d == Record(d[0], IdOf(d), Fields(d[3..])) + Tail(d[3..])
  {
    TerminatedInvertsFields(d[3..]);
    Encode16InvertsDecode16(d[1], d[2]);
    assert d == [d[0], d[1], d[2]] + d[3..];
  }

  // ------------------------------------------------------------------ the encoder, in place

  class UDPMessageValidator {
    var displayName: Text

    constructor ()
      ensures displayName == []
    {
      displayName := [];
    }

    method Prefix(code: Octet, id: MsgId) returns (response: Text)
      ensures response == Record(code, id, [])
    {
      response := [];
      response := response + [code];
      response := response + [(id / 256) as char];
      response := response + [(id % 256) as char];
    }

    method FormByeMessage(id: MsgId) returns (response: Text)
      ensures response == Record(BYE, id, [])
    {
      response := Prefix(BYE, id);
    }

    method FormErrorMessage(id: MsgId, name: Text, error: Text) returns (response: Text)
      ensures response == Record(ERR, id, [name, error])
    {
      response := Prefix(ERR, id);
      response := AddField(response, ERR, id, [], name);
      response := AddField(response, ERR, id, [name], error);
      assert [name] + [error] == [name, error];
    }

    /** Inserting a text at the end and pushing its terminator. */
    method AddField(response: Text, ghost code: Octet, ghost id: MsgId, ghost before: seq<Text>, field: Text)
      returns (r: Text)
      requires response == Record(code, id, before)
      ensures r == Record(code, id, before + [field])
    {
      r := response + field;
      r := r + [NUL];
      assert (before + [field])[..|before|] == before;
      assert r == Header(code, id) + (Terminated(before) + field + [NUL]);
    }

    method Rename(name: Text) returns (ok: bool)
      modifies this
      ensures ok <==> ValidName(name)
      ensures displayName == if ok then name else old(displayName)
    {
      ok := ValidateName(name);
      if ok {
        displayName := name;
      }
    }

    method AuthorizeValidate(code: Octet, id: MsgId, username: Text, name: Text, secret: Text)
      returns (response: Text, ok: bool)
      modifies this
      ensures ok <==> ValidId(username) && ValidName(name) && ValidSecret(secret)
      ensures ok ==> response == Record(code, id, [username, name, secret]) && displayName == name
      ensures !ok ==> response == BAD_AUTH && displayName == old(displayName)
    {
      var a := ValidateWord(username, 20);
      var b := ValidateName(name);
      var c := ValidateWord(secret, 128);
      if !a || !b || !c {
        return BAD_AUTH, false;
      }
      displayName := name;
      response := Prefix(code, id);
      response := AddField(response, code, id, [], username);
      response := AddField(response, code, id, [username], displayName);
      assert [username] + [displayName] == [username, displayName];
      response := AddField(response, code, id, [username, displayName], secret);
      assert [username, displayName] + [secret] == [username, displayName, secret];
      ok := true;
    }

    method JoinValidate(code: Octet, id: MsgId, channel: Text) returns (response: Text, ok: bool)
      ensures ok <==> ValidId(channel)
      ensures response == if ok then Record(code, id, [channel, displayName]) else BAD_JOIN
    {
      ok := ValidateWord(channel, 20);
      if !ok {
        return BAD_JOIN, false;
      }
      response := Prefix(code, id);
      response := AddField(response, code, id, [], channel);
      response := AddField(response, code, id, [channel], displayName);
      assert [channel] + [displayName] == [channel, displayName];
    }

    method MessageValidate(code: Octet, id: MsgId, content: Text) returns (response: Text, ok: bool)
      ensures ok <==> ValidContent(content)
      ensures response == if ok then Record(code, id, [displayName, content]) else BAD_CONTENT
    {
      ok := ValidateContent(content);
      if !ok {
        return BAD_CONTENT, false;
      }
      response := Prefix(code, id);
      response := AddField(response, code, id, [], displayName);
      response := AddField(response, code, id, [displayName], content);
      assert [displayName] + [content] == [displayName, content];
    }

    method ParseAndValidate(payload: Text, layout: Layout) returns (result: seq<Text>, ok: bool)
      ensures ok <==> Readable(layout, payload)
      ensures result == if ok then Fields(payload) else [INVALID]
    {
      result := [];
      var word: Text := [];
      for i := 0 to |payload|
        invariant result + [word] == Split(payload[..i], NUL)
      {
        assert payload[..i + 1][..i] == payload[..i];
        if payload[i] == NUL {
          result := result + [word];
          word := [];
        } else {
          word := word + [payload[i]];
        }
      }
      assert payload[..|payload|] == payload;
      assert Fields(payload) == result by { assert (result + [word])[..|result|] == result; }
      ok := CheckFields(result, layout);
      if !ok {
        result := [INVALID];
      }
    }

    /** The second half: number and form of the words. */
    method CheckFields(fields: seq<Text>, layout: Layout) returns (ok: bool)
      ensures ok <==> WellFormed(layout, fields)
    {
      ok := false;
      match layout {
        case OnReply =>
          if |fields| == 1 {
            ok := ValidateContent(fields[0]);
          }
        case _ =>
          if |fields| == 2 {
            var a := ValidateName(fields[0]);
            var b := ValidateContent(fields[1]);
            ok := a && b;
          }
      }
    }
  }
}
