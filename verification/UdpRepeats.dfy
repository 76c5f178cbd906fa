/** "If the message has been received, it will not be processed again, only confirmed": when that
    is so, what it amounts to, and what happens when it is not. */
module UdpRepeats {
  import opened Octets
  import opened UdpRecords
  import opened Session
  import opened Common
  import opened CommandLines
  import opened UdpMachine
  import opened UdpDelivery
  import opened UdpSession
  import opened UdpReplies

  /** Handlers that differ in what they have confirmed and asked so far, and in nothing that can
      still make a difference. */
  predicate Indistinct(u: Udp, v: Udp) {
    v == u.(fsm := v.fsm, verdicts := v.verdicts, receipts := v.receipts) && Alike(u.fsm, v.fsm)
  }

  /** The handler did nothing but send one CONFIRM. */
  predicate OnlyConfirmed(u: Udp, v: Udp, id: MsgId) {
    v.receipts == u.receipts + [Receipt(|u.link.sent|, id)] && Indistinct(u, v)
  }

  /** The loop waits for the same: for a confirmation, for the server, or for anybody. */
  predicate SameWait(s: ClientState, r: ClientState) {
    s == r || (Listening(s) && Listening(r))
  }

  /** Clients that differ in that alone, handler and event loop together. */
  predicate Twins(c: Client, d: Client) {
    && d == c.(udp := d.udp, state := d.state)
    && Indistinct(c.udp, d.udp) && SameWait(c.state, d.state)
  }

  /** The whole client did nothing but send one CONFIRM: what it awaits, from the peer, for its
      retries and from the user, is what it awaited before. */
  predicate LeftAlone(c: Client, d: Client, id: MsgId) {
    OnlyConfirmed(c.udp, d.udp, id) && Twins(c, d)
  }

  // ------------------------------------------------------------------ it amounts to not at all

  lemma ConsultIndistinct(u: Udp, v: Udp, a: Action)
    requires Indistinct(u, v)
    ensures Indistinct(Consult(u, a).0, Consult(v, a).0) && Consult(u, a).1 == Consult(v, a).1
  {
    StepAlike(u.fsm, v.fsm, a);
  }

  /** Two answers that amount to the same. */
  predicate SameAnswer(a: Answer, b: Answer) {
    Indistinct(a.0, b.0) && a.1 == b.1
  }

  lemma RepliedIndistinct(u: Udp, v: Udp, positive: bool, id: MsgId, ref: MsgId, text: Text)
    requires Indistinct(u, v)
    ensures SameAnswer(Replied(u, positive, id, ref, text), Replied(v, positive, id, ref, text))
  {
    ConsultIndistinct(u, v, if positive then ReplyServer else NReplyServer);
  }

  lemma ChatIndistinct(u: Udp, v: Udp, id: MsgId, name: Text, text: Text)
    requires Indistinct(u, v)
    ensures SameAnswer(OnChat(u, id, name, text), OnChat(v, id, name, text))
  {
    ConsultIndistinct(u, v, MessageServer);
  }

  lemma ErrorIndistinct(u: Udp, v: Udp, id: MsgId, name: Text, text: Text)
    requires Indistinct(u, v)
    ensures SameAnswer(OnServerError(u, id, name, text), OnServerError(v, id, name, text))
  {
    ConsultIndistinct(u, v, ErrorServer);
    FinalErrorIndistinct(Consult(u, ErrorServer).0, Consult(v, ErrorServer).0, id, name, text);
  }

  lemma FinalErrorIndistinct(u: Udp, v: Udp, id: MsgId, name: Text, text: Text)
    requires Indistinct(u, v)
    ensures SameAnswer(OnFinalError(u, id, name, text), OnFinalError(v, id, name, text))
  {
  }

  lemma ObjectionIndistinct(u: Udp, v: Udp, id: MsgId, text: Text)
    requires Indistinct(u, v)
    ensures SameAnswer(Objection(u, text), Objection(v, text))
    ensures SameAnswer(Objection(Acknowledge(u, id), text), Objection(Acknowledge(v, id), text))
  {
  }

  lemma ReplyRecordIndistinct(u: Udp, v: Udp, d: Datagram)
    requires Indistinct(u, v)
    ensures SameAnswer(OnReplyRecord(u, d), OnReplyRecord(v, d))
  {
    if |d| < 6 {
      ObjectionIndistinct(u, v, 0, SHORT_REPLY);
    } else if !Readable(OnReply, d[6..]) {
      ObjectionIndistinct(u, v, 0, BAD_REPLY_CONTENT);
    } else if d[3] in {POSITIVE, NEGATIVE} {
      RepliedIndistinct(u, v, Positive(d), IdOf(d), RefOf(d), Fields(d[6..])[0]);
    } else {
      ObjectionIndistinct(u, v, IdOf(d), BAD_REPLY_STATUS);
    }
  }

  lemma MsgRecordIndistinct(u: Udp, v: Udp, d: Datagram)
    requires Indistinct(u, v)
    ensures SameAnswer(OnMsgRecord(u, d), OnMsgRecord(v, d))
  {
    if |d| >= 3 && Readable(OnMsg, d[3..]) {
      ChatIndistinct(u, v, IdOf(d), Fields(d[3..])[0], Fields(d[3..])[1]);
    }
  }

  lemma ErrRecordIndistinct(u: Udp, v: Udp, d: Datagram)
    requires Indistinct(u, v)
    ensures SameAnswer(OnErrRecord(u, d), OnErrRecord(v, d))
  {
    if |d| >= 4 && Readable(OnErr, d[3..]) {
      ErrorIndistinct(u, v, IdOf(d), Fields(d[3..])[0], Fields(d[3..])[1]);
    }
  }

  lemma OtherRecordIndistinct(u: Udp, v: Udp, d: Datagram)
    requires Indistinct(u, v)
    ensures SameAnswer(OnOtherRecord(u, d), OnOtherRecord(v, d))
    ensures SameAnswer(OnByeRecord(u, d), OnByeRecord(v, d))
    ensures |d| >= 3 ==> SameAnswer(OnConfirm(u, IdOf(d)), OnConfirm(v, IdOf(d)))
  {
  }

  lemma ServerIndistinct(u: Udp, v: Udp, d: Datagram)
    requires Indistinct(u, v)
    ensures SameAnswer(ServerStep(u, d), ServerStep(v, d))
  {
    if d[0] == REPLY {
      ReplyRecordIndistinct(u, v, d);
    } else if d[0] == MSG {
      MsgRecordIndistinct(u, v, d);
    } else if d[0] == ERR {
      ErrRecordIndistinct(u, v, d);
    } else {
      OtherRecordIndistinct(u, v, d);
    }
  }

  lemma AuthIndistinct(u: Udp, v: Udp, argument: Text)
    requires Indistinct(u, v)
    ensures SameAnswer(OnAuth(u, argument), OnAuth(v, argument))
  {
    ConsultIndistinct(u, v, AuthorizeUser);
  }

  lemma JoinIndistinct(u: Udp, v: Udp, argument: Text)
    requires Indistinct(u, v)
    ensures SameAnswer(OnJoin(u, argument), OnJoin(v, argument))
  {
    ConsultIndistinct(u, v, JoinUser);
  }

  lemma TextIndistinct(u: Udp, v: Udp, line: Text)
    requires Indistinct(u, v)
    ensures SameAnswer(OnText(u, line), OnText(v, line))
  {
    ConsultIndistinct(u, v, MessageUser);
  }

  lemma UserIndistinct(u: Udp, v: Udp, line: Text)
    requires Indistinct(u, v)
    ensures SameAnswer(UserStep(u, line), UserStep(v, line))
  {
    var command := ToUpper(Command(line));
    if line != "/exit" && !u.link.errorPending {
      if command == "/AUTH" {
        AuthIndistinct(u, v, Argument(line));
      } else if command == "/JOIN" {
        JoinIndistinct(u, v, Argument(line));
      } else if command !in {"/RENAME", "/HELP"} {
        TextIndistinct(u, v, line);
      }
    }
  }

  lemma TockTwins(c: Client, d: Client, e: Event)
    requires Twins(c, d)
    ensures Twins(Tock(c, e), Tock(d, e))
  {
    match e {
      case FromServer(x) => ServerIndistinct(c.udp, d.udp, x);
      case FromUser(line, _) => UserIndistinct(c.udp, d.udp, line);
      case Timeout =>
      case _ => UserIndistinct(c.udp, d.udp, "/exit");
    }
  }

  /** Whatever follows, the two send, show, record and await the same. */
  lemma {:induction false} RunTwins(c: Client, d: Client, events: seq<Event>)
    requires Twins(c, d)
    ensures Twins(Run(c, events), Run(d, events))
  {
    if |events| > 0 {
      RunTwins(c, d, events[..|events| - 1]);
      TockTwins(Run(c, events[..|events| - 1]), Run(d, events[..|events| - 1]), events[|events| - 1]);
    }
  }

  /** A datagram that left the client alone might as well not have arrived: with it and without
      it, every continuation sends, retransmits, shows, records and awaits the same. */
  lemma LeftAloneIsTraceless(c: Client, d: Datagram, more: seq<Event>)
    requires |d| >= 3 && LeftAlone(c, Tock(c, FromServer(d)), IdOf(d))
    ensures Twins(Run(c, more), Run(Tock(c, FromServer(d)), more))
  {
    RunTwins(c, Tock(c, FromServer(d)), more);
  }

  // ------------------------------------------------------------------------ when that is so

  /** In OPEN: a chat message already recorded, or a reply nobody awaits. */
  predicate Harmless(u: Udp, d: Datagram) {
    && u.fsm.current == Open
    && ((d[0] == MSG && |d| >= 3 && Readable(OnMsg, d[3..]) && IdOf(d) in u.received)
        || (ReadsAsReply(d) && RefOf(d) != u.awaitReply))
  }

  /** The datagram is confirmed and objected to in these words, the session staying where it is:
      what the session would have refused before is refused without a change only in ERROR. */
  predicate Rebuked(u: Udp, d: Datagram, text: Text) {
    if d[0] == REPLY then
      && |d| >= 6 && Readable(OnReply, d[6..])
      && if d[3] in {POSITIVE, NEGATIVE} then RebukedReply(u, Positive(d), text) else text == BAD_REPLY_STATUS
    else if d[0] == ERR then
      && |d| >= 4
      && if Readable(OnErr, d[3..]) then RebukedErr(u, text) else text == BAD_ERR_CONTENT
    else d[0] !in {CONFIRM, MSG, BYE} && |d| >= 3 && text == BAD_FORMAT
  }

  predicate RebukedReply(u: Udp, positive: bool, text: Text) {
    u.fsm.current == Error && text == (if positive then BAD_REPLY_STATE else BAD_NREPLY_STATE)
  }

  predicate RebukedErr(u: Udp, text: Text) {
    u.fsm.current == Error && text == BAD_ERR_STATE
  }

  /** An error is put off already, in the words of the one this datagram raises: writing the same
      words over them leaves no trace. */
  predicate Muffled(u: Udp, d: Datagram) {
    u.link.waiting && u.link.errorPending && Rebuked(u, d, u.link.errorText)
  }

  lemma ObjectionIsVisible(u: Udp, text: Text)
    ensures Complain(u.link, u.name, text) == u.link
      <==> u.link.waiting && u.link.errorPending && u.link.errorText == text
  {
    if !u.link.waiting {
      assert |Complain(u.link, u.name, text).sent| == |u.link.sent| + 1;
    }
  }

  /** What a server's action does to the session: let through without a change only in OPEN, and
      only replies and messages; refused without a change only in ERROR. */
  lemma StepStays(f: Fsm, a: Action)
    requires Held(f) && a in {MessageServer, ReplyServer, NReplyServer, ErrorServer}
    ensures var (g, r) := Step(f, a);
      && r in {Allow, Fail}
      && (r == Allow ==> (Alike(f, g) <==> f.current == Open && a != ErrorServer))
      && (r == Fail ==> (Alike(f, g) <==> f.current == Error))
      && (f.current == Open ==> r == Allow)
      && (f.current == Error ==> r == Fail)
  {
  }

  lemma MsgOnlyConfirmed(u: Udp, d: Datagram)
    requires Held(u.fsm) && |d| >= 3 && d[0] == MSG
    ensures OnlyConfirmed(u, ServerStep(u, d).0, IdOf(d)) <==> Harmless(u, d)
  {
    var v := ServerStep(u, d).0;
    StepStays(u.fsm, MessageServer);
    if Readable(OnMsg, d[3..]) && Step(u.fsm, MessageServer).1 == Allow {
      assert IdOf(d) !in u.received ==> |v.shown| == |u.shown| + 1;
    } else {
      assert v.receipts == u.receipts;
    }
  }

  lemma RepliedOnlyConfirmed(u: Udp, positive: bool, id: MsgId, ref: MsgId, text: Text)
    requires Held(u.fsm)
    ensures OnlyConfirmed(u, Replied(u, positive, id, ref, text).0, id)
      <==> || (u.fsm.current == Open && ref != u.awaitReply)
           || (u.link.waiting && u.link.errorPending && RebukedReply(u, positive, u.link.errorText))
  {
    var a := if positive then ReplyServer else NReplyServer;
    StepStays(u.fsm, a);
    if Step(u.fsm, a).1 == Allow {
      assert ref == u.awaitReply ==> |Replied(u, positive, id, ref, text).0.shown| == |u.shown| + 1;
    } else {
      ObjectionIsVisible(u, if positive then BAD_REPLY_STATE else BAD_NREPLY_STATE);
    }
  }

  lemma ReplyOnlyConfirmed(u: Udp, d: Datagram)
    requires Held(u.fsm) && |d| >= 3 && d[0] == REPLY
    ensures OnlyConfirmed(u, ServerStep(u, d).0, IdOf(d)) <==> Harmless(u, d) || Muffled(u, d)
  {
    ObjectionIsVisible(u, BAD_REPLY_STATUS);
    if |d| < 6 || !Readable(OnReply, d[6..]) {
      assert ServerStep(u, d).0.receipts == u.receipts;
    } else if d[3] in {POSITIVE, NEGATIVE} {
      RepliedOnlyConfirmed(u, d[3] == POSITIVE, IdOf(d), Decode16(d[4], d[5]), Fields(d[6..])[0]);
    }
  }

  lemma FinalErrorIsVisible(u: Udp, id: MsgId, name: Text, text: Text)
    ensures |OnFinalError(u, id, name, text).0.link.sent| == |u.link.sent| + 1
  {
  }

  lemma ServerErrorConfirms(u: Udp, id: MsgId, name: Text, text: Text)
    requires Held(u.fsm)
    ensures OnlyConfirmed(u, OnServerError(u, id, name, text).0, id)
      <==> u.link.waiting && u.link.errorPending && RebukedErr(u, u.link.errorText)
  {
    var (v, r) := Consult(u, ErrorServer);
    StepStays(u.fsm, ErrorServer);
    if r == Allow {
      FinalErrorIsVisible(v, id, name, text);
    } else {
      ObjectionIsVisible(v, BAD_ERR_STATE);
    }
  }

  lemma ErrOnlyConfirmed(u: Udp, d: Datagram)
    requires Held(u.fsm) && |d| >= 3 && d[0] == ERR
    ensures OnlyConfirmed(u, ServerStep(u, d).0, IdOf(d)) <==> Muffled(u, d)
  {
    ObjectionIsVisible(u, BAD_ERR_CONTENT);
    if |d| < 4 {
      assert ServerStep(u, d).0.receipts == u.receipts;
    } else if Readable(OnErr, d[3..]) {
      ServerErrorConfirms(u, IdOf(d), Fields(d[3..])[0], Fields(d[3..])[1]);
    }
  }

  lemma AnyOnlyConfirmed(u: Udp, d: Datagram)
    requires Held(u.fsm) && |d| >= 3 && d[0] != CONFIRM
    ensures OnlyConfirmed(u, ServerStep(u, d).0, IdOf(d)) <==> Harmless(u, d) || Muffled(u, d)
  {
    if d[0] == MSG {
      MsgOnlyConfirmed(u, d);
    } else if d[0] == REPLY {
      ReplyOnlyConfirmed(u, d);
    } else if d[0] == ERR {
      ErrOnlyConfirmed(u, d);
    } else if d[0] == BYE {
      assert |ServerStep(u, d).0.received| == |u.received| + 1;
    } else {
      ObjectionIsVisible(u, BAD_FORMAT);
    }
  }

  /** What the loop waits for after a datagram that the handler only confirmed: an unawaited
      negative reply makes it wait for another reply. */
  function Due(u: Udp, d: Datagram): ClientState {
    if u.link.waiting then WaitingForConfirmation
    else if d[0] == REPLY && !Positive(d) then WaitingForReply
    else ReadyForInput
  }

  lemma OnlyConfirmedAnswer(u: Udp, d: Datagram)
    requires Held(u.fsm) && |d| >= 3 && d[0] != CONFIRM && (Harmless(u, d) || Muffled(u, d))
    ensures ServerStep(u, d).1 == Due(u, d) && ServerStep(u, d).0.link == u.link
  {
    AnyOnlyConfirmed(u, d);
    StepStays(u.fsm, MessageServer);
    StepStays(u.fsm, ReplyServer);
    StepStays(u.fsm, NReplyServer);
  }

  /** The retries left are the same if the loop waits for the same. */
  lemma BudgetStays(c: Client, d: Datagram)
    requires Inv(c) && c.state != Closed && SameWait(c.state, ServerStep(c.udp, d).1)
    ensures Tock(c, FromServer(d)).retry == c.retry
  {
  }

  lemma LeftAloneStep(c: Client, d: Datagram)
    requires Inv(c) && c.state != Closed && |d| >= 3
    ensures LeftAlone(c, Tock(c, FromServer(d)), IdOf(d))
      <==> OnlyConfirmed(c.udp, ServerStep(c.udp, d).0, IdOf(d)) && SameWait(c.state, ServerStep(c.udp, d).1)
  {
    DatagramIsTaken(c, d);
    if SameWait(c.state, ServerStep(c.udp, d).1) {
      BudgetStays(c, d);
    }
  }

  /** At any point of any run, a datagram other than a CONFIRM leaves the client alone if and only
      if two things hold. The session is in OPEN and it is a message already recorded or a reply
      nobody awaits, or its objection is muffled. And the loop already waits for what the answer
      makes it wait for. */
  lemma LeftAloneExactly(max: nat, before: seq<Event>, d: Datagram)
    requires Run(Launch(max), before).state != Closed && |d| >= 3 && d[0] != CONFIRM
    ensures var c := Run(Launch(max), before);
      LeftAlone(c, Tock(c, FromServer(d)), IdOf(d))
      <==> (Harmless(c.udp, d) || Muffled(c.udp, d)) && SameWait(c.state, Due(c.udp, d))
  {
    var c := Run(Launch(max), before);
    RunOrderly(max, before);
    RunKeeps(max, before);
    LeftAloneStep(c, d);
    AnyOnlyConfirmed(c.udp, d);
    if Harmless(c.udp, d) || Muffled(c.udp, d) {
      OnlyConfirmedAnswer(c.udp, d);
    }
  }

  // ---------------------------------------------------------------------- when it is not so

  /** The retransmission of a negative answer to AUTH ends the session: the first copy leaves only
      a new authorization expected, so the second is an offence. */
  lemma RepeatedRefusalEndsTheSession(u: Udp, no: Datagram)
    requires u.fsm.current == Auth && u.fsm.expected == [Any] && !u.link.waiting
    requires ReadsAsReply(no) && !Positive(no) && RefOf(no) == u.awaitReply
    ensures var once := ServerStep(u, no).0;
      var twice := ServerStep(once, no).0;
      && once.link == u.link && IdOf(no) in once.received
      && twice.fsm.current == Error && Originates(u.link, twice.link, Failure)
  {
  }

  /** The session waits for the answer to an AUTH, with no restriction armed. */
  predicate AwaitsLogin(u: Udp) {
    u.fsm.current == Auth && u.fsm.expected == [Any] && !u.link.waiting
  }

  lemma RefusedAgain(u: Udp, no: Datagram)
    requires AwaitsLogin(u) && ReadsAsReply(no) && !Positive(no) && RefOf(no) != u.awaitReply
    ensures var v := ServerStep(u, no).0;
      && v == u.(fsm := v.fsm, verdicts := v.verdicts, receipts := v.receipts)
      && v.receipts == u.receipts + [Receipt(|u.link.sent|, IdOf(no))]
      && v.fsm == Fsm(Auth, Auth, [AuthorizeUser])
  {
  }

  lemma RepliedIsAnOffence(u: Udp, id: MsgId, ref: MsgId, text: Text)
    requires u.fsm == Fsm(Auth, Auth, [AuthorizeUser]) && !u.link.waiting
    ensures var v := Replied(u, true, id, ref, text).0;
      v.fsm.current == Error && v.shown == u.shown && Originates(u.link, v.link, Failure)
  {
  }

  lemma OkIsAnOffence(u: Udp, ok: Datagram)
    requires u.fsm == Fsm(Auth, Auth, [AuthorizeUser]) && !u.link.waiting
    requires ReadsAsReply(ok) && Positive(ok)
    ensures var v := ServerStep(u, ok).0;
      v.fsm.current == Error && v.shown == u.shown && Originates(u.link, v.link, Failure)
  {
    RepliedIsAnOffence(u, IdOf(ok), RefOf(ok), Fields(ok[6..])[0]);
  }

  /** If a new authorization has been asked for by then, nothing is to be seen when the second
      copy arrives; but the answer to the new request, which would have logged the client in, is
      now an offence. */
  lemma RepeatedRefusalSpoilsLogin(u: Udp, no: Datagram, ok: Datagram)
    requires AwaitsLogin(u) && ReadsAsReply(no) && !Positive(no) && RefOf(no) != u.awaitReply
    requires ReadsAsReply(ok) && Positive(ok)
    ensures var quiet := ServerStep(u, no).0;
      var spoiled := ServerStep(quiet, ok).0;
      && quiet == u.(fsm := quiet.fsm, verdicts := quiet.verdicts, receipts := quiet.receipts)
      && spoiled.fsm.current == Error && spoiled.shown == u.shown
      && Originates(u.link, spoiled.link, Failure)
      && ServerStep(u, ok).0.fsm.current == Open
  {
    RefusedAgain(u, no);
    OkIsAnOffence(ServerStep(u, no).0, ok);
    ServerLogsIn(u, ok);
  }

  /** A client refused for the first time. */
  predicate Refused(c: Client, id: MsgId) {
    && c.state == ReadyForInput && c.udp.fsm == Fsm(Auth, Auth, [AuthorizeUser]) && id in c.udp.received
    && c.udp.link.next == 1 && !c.udp.link.waiting
    && !c.udp.link.errorPending && !c.udp.link.awaitingOver && !c.udp.link.errorSent
  }

  lemma FirstAuth(c: Client, line: Text, stray: ClientState)
    requires c.udp == BOOT && c.state == ReadyForInput && AuthorizeLine(line)
    ensures var d := Tock(c, FromUser(line, stray));
      && d.state == WaitingForConfirmation && d.udp.fsm == Fsm(Auth, Start, [Any])
      && d.udp.waitReply && d.udp.awaitReply == 0
      && d.udp.link.awaited == 0 && d.udp.link.next == 1
      && !d.udp.link.errorPending && !d.udp.link.awaitingOver && !d.udp.link.errorSent
  {
    assert |line| > 0;
    LineIsTaken(c, line, stray);
  }

  lemma FirstRefusal(u: Udp, no: Datagram)
    requires AwaitsLogin(u) && ReadsAsReply(no) && !Positive(no) && RefOf(no) == u.awaitReply
    ensures var (v, r) := ServerStep(u, no);
      && r == ReadyForInput && v.fsm == Fsm(Auth, Auth, [AuthorizeUser])
      && IdOf(no) in v.received && v.link == u.link
  {
  }

  lemma FirstTry(max: nat, line: Text, stray: ClientState, confirm: Datagram, no: Datagram) returns (c: Client)
    requires AuthorizeLine(line) && IsConfirm(confirm, 0)
    requires ReadsAsReply(no) && !Positive(no) && RefOf(no) == 0
    ensures c == Run(Launch(max), [FromUser(line, stray), FromServer(confirm), FromServer(no)])
    ensures Refused(c, IdOf(no))
  {
    var asked := Tock(Launch(max), FromUser(line, stray));
    FirstAuth(Launch(max), line, stray);
    ConfirmSettles(asked.udp, confirm);
    DatagramIsTaken(asked, confirm);
    var settled := Tock(asked, FromServer(confirm));
    FirstRefusal(settled.udp, no);
    DatagramIsTaken(settled, no);
    c := Tock(settled, FromServer(no));
    RunOfThree(Launch(max), FromUser(line, stray), FromServer(confirm), FromServer(no));
  }

  lemma AuthAgain(u: Udp, line: Text)
    requires AuthorizeLine(line) && u.fsm == Fsm(Auth, Auth, [AuthorizeUser]) && !u.link.errorPending
    ensures var (v, r) := UserStep(u, line);
      && r == WaitingForConfirmation && v.fsm == Fsm(Auth, Auth, [Any]) && v.received == u.received
      && v.waitReply && v.awaitReply == u.link.next && v.link.awaited == u.link.next
      && v.link.awaitingOver == u.link.awaitingOver && v.link.errorSent == u.link.errorSent
  {
  }

  lemma SecondTry(c: Client, id: MsgId, line: Text, stray: ClientState, confirm: Datagram) returns (d: Client)
    requires Refused(c, id) && AuthorizeLine(line) && IsConfirm(confirm, 1)
    ensures d == Tock(Tock(c, FromUser(line, stray)), FromServer(confirm))
    ensures d.state == WaitingForReply && AwaitsLogin(d.udp) && d.udp.awaitReply == 1 && id in d.udp.received
  {
    assert |line| > 0;
    AuthAgain(c.udp, line);
    LineIsTaken(c, line, stray);
    var asked := Tock(c, FromUser(line, stray));
    ConfirmSettles(asked.udp, confirm);
    DatagramIsTaken(asked, confirm);
    d := Tock(asked, FromServer(confirm));
  }

  /** Such a client is five events away from the start: it asked and was refused, and has asked
      again. The refusal it has then recorded and confirmed is the one that spoils the login. */
  lemma SpoiledLoginIsReachable(max: nat, line: Text, stray: ClientState,
      confirm: Datagram, no: Datagram, again: Datagram) returns (events: seq<Event>)
    requires AuthorizeLine(line) && IsConfirm(confirm, 0) && IsConfirm(again, 1)
    requires ReadsAsReply(no) && !Positive(no) && RefOf(no) == 0
    ensures events == [FromUser(line, stray), FromServer(confirm), FromServer(no),
                       FromUser(line, stray), FromServer(again)]
    ensures var c := Run(Launch(max), events);
      && c.state == WaitingForReply && AwaitsLogin(c.udp) && RefOf(no) != c.udp.awaitReply
      && IdOf(no) in c.udp.received
  {
    var start := [FromUser(line, stray), FromServer(confirm), FromServer(no)];
    var refused := FirstTry(max, line, stray, confirm, no);
    var d := SecondTry(refused, IdOf(no), line, stray, again);
    events := start + [FromUser(line, stray), FromServer(again)];
    RunInTwo(Launch(max), start, [FromUser(line, stray), FromServer(again)]);
    RunOfTwo(refused, FromUser(line, stray), FromServer(again));
  }

  // ------------------------------------------------------------ when the loop is not left alone

  /** Neither a datagram nor the interrupt. */
  predicate Quiet(e: Event) {
    !e.FromServer? && !e.Interrupt?
  }

  predicate AllQuiet(events: seq<Event>) {
    forall k :: 0 <= k < |events| ==> Quiet(events[k])
  }

  /** Waiting for a reply, the loop hears nothing but the server and the interrupt. */
  lemma {:induction false} DeafWhileWaiting(c: Client, events: seq<Event>)
    requires c.state == WaitingForReply && AllQuiet(events)
    ensures Run(c, events) == c
  {
    if |events| > 0 {
      DeafWhileWaiting(c, events[..|events| - 1]);
      assert Quiet(events[|events| - 1]);
    }
  }

  /** Logged in, listening, with nothing awaited. */
  predicate AtLeisure(c: Client) {
    && Listening(c.state) && c.udp.fsm.current == Open && c.udp.fsm.expected == [Any]
    && !c.udp.link.waiting && !c.udp.link.errorPending
  }

  lemma UnawaitedRefusal(u: Udp, no: Datagram)
    requires u.fsm.current == Open && u.fsm.expected == [Any] && !u.link.waiting
    requires ReadsAsReply(no) && !Positive(no) && RefOf(no) != u.awaitReply
    ensures ServerStep(u, no).1 == WaitingForReply && OnlyConfirmed(u, ServerStep(u, no).0, IdOf(no))
  {
  }

  lemma RefusalDeafens(c: Client, no: Datagram)
    requires AtLeisure(c) && ReadsAsReply(no) && !Positive(no) && RefOf(no) != c.udp.awaitReply
    ensures var n := Tock(c, FromServer(no));
      OnlyConfirmed(c.udp, n.udp, IdOf(no)) && n.state == WaitingForReply
  {
    UnawaitedRefusal(c.udp, no);
    DatagramIsTaken(c, no);
  }

  /** A negative reply nobody awaits, a retransmitted one for instance, changes nothing in the
      handler, but the loop goes back to waiting for a reply. Without it the next line is sent;
      with it, whatever the user types is not read until the server is heard from. */
  lemma RepeatedRefusalBlocksInput(c: Client, no: Datagram, line: Text, stray: ClientState, events: seq<Event>)
    requires AtLeisure(c) && ChatLine(line) && AllQuiet(events)
    requires ReadsAsReply(no) && !Positive(no) && RefOf(no) != c.udp.awaitReply
    ensures var n := Tock(c, FromServer(no));
      && OnlyConfirmed(c.udp, n.udp, IdOf(no)) && n.state == WaitingForReply
      && Run(n, events) == n
      && Originates(c.udp.link, Tock(c, FromUser(line, stray)).udp.link, Chat)
  {
    RefusalDeafens(c, no);
    DeafWhileWaiting(Tock(c, FromServer(no)), events);
    LineIsTaken(c, line, stray);
    ChatIsSent(c.udp, line);
  }

  /** The other way round, a message repeated while a reply is awaited lets the user type again. */
  lemma RepeatedMessageFreesInput(c: Client, d: Datagram)
    requires c.state == WaitingForReply && c.udp.fsm.current == Open && c.udp.fsm.expected == [Any]
    requires !c.udp.link.waiting && d[0] == MSG && Harmless(c.udp, d)
    ensures var n := Tock(c, FromServer(d));
      OnlyConfirmed(c.udp, n.udp, IdOf(d)) && n.state == ReadyForInput
  {
  }

  lemma FirstSuccess(u: Udp, ok: Datagram)
    requires AwaitsLogin(u) && ReadsAsReply(ok) && Positive(ok) && RefOf(ok) == u.awaitReply
    ensures var (v, r) := ServerStep(u, ok);
      && r == ReadyForInput && v.fsm == Fsm(Open, Auth, [Any]) && v.link == u.link
  {
  }

  /** A client just logged in by the answer to its first AUTH. */
  predicate JustLoggedIn(c: Client) {
    && AtLeisure(c) && c.udp.link.next == 1
    && !c.udp.link.awaitingOver && !c.udp.link.errorSent
  }

  lemma LoggingIn(max: nat, line: Text, stray: ClientState, confirm: Datagram, ok: Datagram) returns (c: Client)
    requires AuthorizeLine(line) && IsConfirm(confirm, 0)
    requires ReadsAsReply(ok) && Positive(ok) && RefOf(ok) == 0
    ensures c == Run(Launch(max), [FromUser(line, stray), FromServer(confirm), FromServer(ok)])
    ensures JustLoggedIn(c)
  {
    var asked := Tock(Launch(max), FromUser(line, stray));
    FirstAuth(Launch(max), line, stray);
    ConfirmSettles(asked.udp, confirm);
    DatagramIsTaken(asked, confirm);
    var settled := Tock(asked, FromServer(confirm));
    FirstSuccess(settled.udp, ok);
    DatagramIsTaken(settled, ok);
    c := Tock(settled, FromServer(ok));
    RunOfThree(Launch(max), FromUser(line, stray), FromServer(confirm), FromServer(ok));
  }

  lemma JoinAsked(u: Udp, line: Text)
    requires ChannelLine(line) && u.fsm.current == Open && u.fsm.expected == [Any] && !u.link.errorPending
    ensures var (v, r) := UserStep(u, line);
      && r == WaitingForConfirmation && v.fsm == Fsm(Open, Open, [Any])
      && v.waitReply && v.awaitReply == u.link.next && v.link.awaited == u.link.next
      && v.link.awaitingOver == u.link.awaitingOver && v.link.errorSent == u.link.errorSent
      && v.link.errorPending == u.link.errorPending
  {
  }

  lemma JoinRefused(u: Udp, no: Datagram)
    requires u.fsm.current == Open && u.fsm.expected == [Any] && !u.link.waiting
    requires ReadsAsReply(no) && !Positive(no) && RefOf(no) == u.awaitReply
    ensures var (v, r) := ServerStep(u, no);
      && r == ReadyForInput && v.fsm == Fsm(Open, Open, [Any]) && v.link == u.link
      && v.awaitReply == NONE && IdOf(no) in v.received
  {
  }

  /** The JOIN under identifier 1 waits for its CONFIRM. */
  predicate Joining(c: Client) {
    && c.state == WaitingForConfirmation && c.udp.fsm == Fsm(Open, Open, [Any])
    && c.udp.waitReply && c.udp.awaitReply == 1 && c.udp.link.awaited == 1
    && !c.udp.link.errorPending && !c.udp.link.awaitingOver && !c.udp.link.errorSent
  }

  lemma JoinIsAsked(c: Client, line: Text, stray: ClientState)
    requires JustLoggedIn(c) && ChannelLine(line)
    ensures Joining(Tock(c, FromUser(line, stray)))
  {
    assert |line| > 0;
    JoinAsked(c.udp, line);
    LineIsTaken(c, line, stray);
  }

  lemma JoinIsRefused(c: Client, confirm: Datagram, no: Datagram)
    requires Joining(c) && IsConfirm(confirm, 1)
    requires ReadsAsReply(no) && !Positive(no) && RefOf(no) == 1
    ensures var d := Tock(Tock(c, FromServer(confirm)), FromServer(no));
      AtLeisure(d) && d.udp.awaitReply == NONE && IdOf(no) in d.udp.received
  {
    ConfirmSettles(c.udp, confirm);
    DatagramIsTaken(c, confirm);
    var settled := Tock(c, FromServer(confirm));
    JoinRefused(settled.udp, no);
    DatagramIsTaken(settled, no);
  }

  /** The reply has been recorded and is no longer awaited, and the user may type. */
  predicate OverAndDoneWith(c: Client, no: Datagram) {
    && AtLeisure(c) && |no| >= 6
    && IdOf(no) in c.udp.received && RefOf(no) != c.udp.awaitReply
  }

  lemma JoiningInVain(c: Client, line: Text, stray: ClientState, confirm: Datagram, no: Datagram) returns (d: Client)
    requires JustLoggedIn(c) && ChannelLine(line) && IsConfirm(confirm, 1)
    requires ReadsAsReply(no) && !Positive(no) && RefOf(no) == 1
    ensures d == Run(c, [FromUser(line, stray), FromServer(confirm), FromServer(no)])
    ensures OverAndDoneWith(d, no)
  {
    var asked := Tock(c, FromUser(line, stray));
    JoinIsAsked(c, line, stray);
    JoinIsRefused(asked, confirm, no);
    d := Tock(Tock(asked, FromServer(confirm)), FromServer(no));
    RunOfThree(c, FromUser(line, stray), FromServer(confirm), FromServer(no));
  }

  /** Such a client is six events away from the start: it logged in, asked to join and was refused.
      The refusal it has then shown, recorded and confirmed blocks its input when it comes again. */
  lemma BlockedInputIsReachable(max: nat, auth: Text, join: Text, stray: ClientState,
      confirm: Datagram, ok: Datagram, again: Datagram, no: Datagram) returns (events: seq<Event>)
    requires AuthorizeLine(auth) && ChannelLine(join) && IsConfirm(confirm, 0) && IsConfirm(again, 1)
    requires ReadsAsReply(ok) && Positive(ok) && RefOf(ok) == 0
    requires ReadsAsReply(no) && !Positive(no) && RefOf(no) == 1
    ensures events == [FromUser(auth, stray), FromServer(confirm), FromServer(ok),
                       FromUser(join, stray), FromServer(again), FromServer(no)]
    ensures OverAndDoneWith(Run(Launch(max), events), no)
  {
    var login := [FromUser(auth, stray), FromServer(confirm), FromServer(ok)];
    var ask := [FromUser(join, stray), FromServer(again), FromServer(no)];
    var c := LoggingIn(max, auth, stray, confirm, ok);
    var d := JoiningInVain(c, join, stray, again, no);
    events := login + ask;
    RunInTwo(Launch(max), login, ask);
  }
}
