/** The two transports accept the same `/auth` lines and carry the same credentials. */
module Agreement {
  import opened Octets
  import opened Grammar
  import opened Session
  import opened Common
  import opened TcpText
  import Records = UdpRecords
  import Udp = UdpMachine
  import Tcp = TcpMachine

  /** What the peer makes of a TCP line: the words around AS and USING. */
  function FromLine(line: Text): seq<Text> {
    var parts := Split(line, SP);
    if |parts| == 6 then [parts[1], parts[3], parts[5]] else []
  }

  lemma CredentialsAreFree(argument: Text)
    requires ValidCredentials(Split(argument, SP))
    ensures var p := Split(argument, SP);
      && Free(p[0], SP) && Free(p[1], SP) && Free(p[2], SP)
      && AllFree([p[0], p[2], p[1]], NUL)
  {
    var p := Split(argument, SP);
    SplitPieces(argument, SP);
    WordsAreClean(p[0], 20);
    WordsAreClean(p[1], 128);
    PrintableIsClean(p[2]);
  }

  lemma AuthLineWords(id: Text, name: Text, secret: Text)
    requires Free(id, SP) && Free(name, SP) && Free(secret, SP)
    ensures FromLine(AuthLine(id, name, secret)) == [id, name, secret]
  {
    assert AuthLine(id, name, secret) == Words3("AUTH", id, "AS", name + [SP] + ("USING" + [SP] + secret));
    SplitWords3("AUTH", id, "AS", name + [SP] + ("USING" + [SP] + secret));
    SplitWord(name, "USING" + [SP] + secret);
    SplitWord("USING", secret);
    SplitFree(secret, SP);
  }

  /** For every argument both transports send an AUTH or neither does; when they do, splitting the
      line at spaces and the datagram's payload at NULs gives the same three texts. */
  lemma TransportsAgree(u: Udp.Udp, t: Tcp.Tcp, argument: Text)
    requires Step(u.fsm, AuthorizeUser).1 == Allow && Step(t.fsm, AuthorizeUser).1 == Allow
    ensures var sent := Udp.OnAuth(u, argument).0.link.sent;
      var said := Tcp.OnAuth(t, argument).0.sent;
      if ValidCredentials(Split(argument, SP)) then
        exists o: Udp.Original, line ::
          && sent == u.link.sent + [o] && o.kind == Authorize && |o.data| >= 3
          && said == t.sent + [Tcp.Sent(Authorize, line + CRLF)]
          && Records.Fields(o.data[3..]) == FromLine(line)
          && |FromLine(line)| == 3
      else sent == u.link.sent && said == t.sent
  {
    if ValidCredentials(Split(argument, SP)) {
      var p := Split(argument, SP);
      var line := AuthLine(p[0], p[2], p[1]);
      var data := Records.Record(Records.AUTH, u.link.next, [p[0], p[2], p[1]]);
      CredentialsAreFree(argument);
      AuthLineWords(p[0], p[2], p[1]);
      Records.ParseInvertsPrint(Records.OnMsg, Records.AUTH, u.link.next, [p[0], p[2], p[1]]);
      var o := Udp.Original(Authorize, u.link.next, data);
      assert Udp.OnAuth(u, argument).0.link.sent == u.link.sent + [o];
      assert Tcp.OnAuth(t, argument).0.sent == t.sent + [Tcp.Sent(Authorize, line + CRLF)];
    }
  }

  function AuthRecord(id: MsgId, parts: seq<Text>): Text
    requires |parts| == 3
  {
    Records.Record(Records.AUTH, id, [parts[0], parts[2], parts[1]])
  }

  /** Neither encoding confuses two accepted arguments. */
  lemma CredentialsAreRecoverable(a: Text, b: Text, id: MsgId)
    requires ValidCredentials(Split(a, SP)) && ValidCredentials(Split(b, SP))
    ensures var p, q := Split(a, SP), Split(b, SP);
      && (AuthLine(p[0], p[2], p[1]) == AuthLine(q[0], q[2], q[1]) ==> a == b)
      && (AuthRecord(id, p) == AuthRecord(id, q) ==> a == b)
  {
    var p, q := Split(a, SP), Split(b, SP);
    CredentialsAreFree(a);
    CredentialsAreFree(b);
    AuthLineWords(p[0], p[2], p[1]);
    AuthLineWords(q[0], q[2], q[1]);
    RecordRecovers(id, [p[0], p[2], p[1]]);
    RecordRecovers(id, [q[0], q[2], q[1]]);
    SameParts(a, b);
  }

  lemma RecordRecovers(id: MsgId, fields: seq<Text>)
    requires AllFree(fields, NUL)
    ensures Records.Fields(Records.Record(Records.AUTH, id, fields)[3..]) == fields
  {
    Records.ParseInvertsPrint(Records.OnMsg, Records.AUTH, id, fields);
  }

  lemma SameParts(a: Text, b: Text)
    requires |Split(a, SP)| == 3 && |Split(b, SP)| == 3
    ensures var p, q := Split(a, SP), Split(b, SP);
      [p[0], p[2], p[1]] == [q[0], q[2], q[1]] ==> a == b
  {
    var p, q := Split(a, SP), Split(b, SP);
    JoinSplit(a, SP);
    JoinSplit(b, SP);
    if [p[0], p[2], p[1]] == [q[0], q[2], q[1]] {
      assert p[0] == [p[0], p[2], p[1]][0] && p[1] == [p[0], p[2], p[1]][2] && p[2] == [p[0], p[2], p[1]][1];
      assert p == q;
    }
  }
}
