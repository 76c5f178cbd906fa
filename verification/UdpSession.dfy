/** The UDP client's session over every run: which answers the state machine gives, what is
    displayed, which replies are accepted, and what logging in takes. */
module UdpSession {
  import opened Octets
  import opened Grammar
  import opened UdpRecords
  import opened Session
  import opened Common
  import opened CommandLines
  import opened Login
  import opened UdpMachine
  import opened UdpDelivery
  import opened UdpReceipts

  // ------------------------------------------------------------ one consultation per event

  /** `v` results from `u` by submitting each of `asked`, which is at most one action. */
  predicate Asked(u: Udp, v: Udp, asked: seq<Action>) {
    if |asked| == 0 then v.fsm == u.fsm && v.verdicts == u.verdicts
    else
      var (f, r) := Step(u.fsm, asked[0]);
      && |asked| == 1 && v.fsm == f
      && v.verdicts == u.verdicts + [Verdict(|u.link.sent|, asked[0], r)]
  }

  /** A REPLY the handler can read, with one of the two statuses it knows. */
  predicate ReadsAsReply(d: Datagram) {
    d[0] == REPLY && |d| >= 6 && Readable(OnReply, d[6..]) && d[3] in {POSITIVE, NEGATIVE}
  }

  predicate Positive(d: Datagram) {
    |d| > 3 && d[3] == POSITIVE
  }

  function RefOf(d: Datagram): MsgId
    requires |d| >= 6
  {
    Decode16(d[4], d[5])
  }

  function ReplyAction(d: Datagram): Action {
    if Positive(d) then ReplyServer else NReplyServer
  }

  function LineOfReply(d: Datagram): Line
    requires ReadsAsReply(d)
  {
    Answered(Positive(d), RefOf(d), Fields(d[6..])[0])
  }

  lemma ReplyAsks(u: Udp, d: Datagram) returns (asked: seq<Action>)
    ensures Asked(u, OnReplyRecord(u, d).0, asked)
    ensures d[0] == REPLY ==> asked == if ReadsAsReply(d) then [ReplyAction(d)] else []
  {
    asked := [];
    if |d| >= 6 && Readable(OnReply, d[6..]) && d[3] in {NEGATIVE, POSITIVE} {
      asked := [ReplyAction(d)];
    }
  }

  lemma ServerAsks(u: Udp, d: Datagram) returns (asked: seq<Action>)
    ensures Asked(u, ServerStep(u, d).0, asked)
    ensures |asked| == 0 || asked in [[ReplyServer], [NReplyServer], [MessageServer], [ErrorServer]]
    ensures asked == [ReplyServer] <==> ReadsAsReply(d) && Positive(d)
    ensures d[0] == REPLY ==> asked == if ReadsAsReply(d) then [ReplyAction(d)] else []
  {
    asked := [];
    if d[0] == REPLY {
      asked := ReplyAsks(u, d);
    } else if d[0] == MSG {
      if |d| >= 3 && Readable(OnMsg, d[3..]) {
        asked := [MessageServer];
      }
    } else if d[0] == ERR {
      if |d| >= 4 && Readable(OnErr, d[3..]) {
        asked := [ErrorServer];
      }
    }
  }

  /** Nothing is sent, or one original of this kind. */
  predicate SendsOnly(u: Udp, v: Udp, kind: Kind) {
    || v.link.sent == u.link.sent
    || (|v.link.sent| == |u.link.sent| + 1 && v.link.sent[|u.link.sent|].kind == kind)
  }

  lemma AuthAsks(u: Udp, argument: Text)
    ensures Asked(u, OnAuth(u, argument).0, [AuthorizeUser])
    ensures SendsOnly(u, OnAuth(u, argument).0, Authorize)
  {
  }

  lemma JoinAsks(u: Udp, argument: Text)
    ensures Asked(u, OnJoin(u, argument).0, [JoinUser]) && SendsOnly(u, OnJoin(u, argument).0, JoinChannel)
  {
  }

  lemma TextAsks(u: Udp, line: Text) returns (asked: seq<Action>)
    ensures asked in [[], [MessageUser]] && (|asked| == 0 <==> |line| > 0 && line[0] == '/')
    ensures Asked(u, OnText(u, line).0, asked) && SendsOnly(u, OnText(u, line).0, Chat)
    ensures OnText(u, line).0.link.sent != u.link.sent ==> asked == [MessageUser]
  {
    asked := if |line| > 0 && line[0] == '/' then [] else [MessageUser];
  }

  /** The line makes the handler ask the session. */
  predicate Consults(u: Udp, line: Text) {
    var command := ToUpper(Command(line));
    && line != "/exit" && !u.link.errorPending
    && (command in {"/AUTH", "/JOIN"}
        || (command !in {"/RENAME", "/HELP"} && !(|line| > 0 && line[0] == '/')))
  }

  lemma UserAsks(u: Udp, line: Text) returns (asked: seq<Action>)
    ensures Asked(u, UserStep(u, line).0, asked)
    ensures |asked| == 1 <==> Consults(u, line)
    ensures |asked| == 0 || asked in [[AuthorizeUser], [JoinUser], [MessageUser]]
    ensures var l := UserStep(u, line).0.link;
      |l.sent| > |u.link.sent| && Request(l.sent[|u.link.sent|].kind) ==>
        asked == [ActionOf(l.sent[|u.link.sent|].kind)]
  {
    var command, argument := ToUpper(Command(line)), Argument(line);
    asked := [];
    if line == "/exit" || u.link.errorPending {
    } else if command == "/AUTH" {
      asked := [AuthorizeUser];
      AuthAsks(u, argument);
    } else if command == "/JOIN" {
      asked := [JoinUser];
      JoinAsks(u, argument);
    } else if command != "/RENAME" && command != "/HELP" {
      asked := TextAsks(u, line);
    }
  }

  // ------------------------------------------------------------- lines that are let through

  lemma LineIsTaken(c: Client, line: Text, stray: ClientState)
    requires Listening(c.state) && |line| > 0
    ensures var (u, r) := UserStep(c.udp, line);
      Tock(c, FromUser(line, stray)) == c.(udp := u, state := Settle(r, stray))
  {
  }

  lemma DatagramIsTaken(c: Client, d: Datagram)
    requires c.state != Closed
    ensures var (u, r) := ServerStep(c.udp, d);
      Tock(c, FromServer(d)).udp == u && Tock(c, FromServer(d)).state == r
  {
  }

  lemma ChatIsText(u: Udp, line: Text)
    requires ChatLine(line) && !u.link.errorPending
    ensures UserStep(u, line) == OnText(u, line)
  {
    var command := ToUpper(Command(line));
    assert "/exit"[0] == '/';
    assert |command| > 0 ==> command[0] == Upper(line[0]);
  }

  lemma ChatIsSent(u: Udp, line: Text)
    requires ChatLine(line) && !u.link.errorPending
    requires u.fsm.current == Open && !Restricted(u.fsm)
    ensures Originates(u.link, UserStep(u, line).0.link, Chat)
  {
    ChatIsText(u, line);
  }

  lemma AuthIsSent(u: Udp, line: Text)
    requires AuthorizeLine(line) && !u.link.errorPending
    requires u.fsm.current == Auth && !Restricted(u.fsm)
    ensures Originates(u.link, UserStep(u, line).0.link, Authorize)
  {
  }

  // ---------------------------------------------------------------- the answers that arise

  /** Over UDP: which restrictions each state is held with, and what it could be rolled back to. */
  predicate Held(f: Fsm) {
    && Sound(f) && ListFits(f)
    && f.previous !in {Error, End}
    && (f.previous == Open ==> f.current in {Open, Error, End})
    && (f.current == End ==> f.previous in {Auth, Open})
  }

  predicate UdpAction(a: Action) {
    Submitted(a) && a != ByeServer
  }

  lemma ExpectHeld(f: Fsm, a: Action)
    requires Held(f) && UdpAction(a) && Restricted(f)
    ensures Held(Expect(f, a).0) && Expect(f, a).1 !in {Finished, Undefined}
  {
  }

  lemma DispatchHeld(f: Fsm, a: Action)
    requires Held(f) && UdpAction(a) && !Restricted(f)
    ensures Held(Dispatch(f, a).0) && Dispatch(f, a).1 !in {Finished, Undefined}
  {
  }

  lemma StepHeld(f: Fsm, a: Action)
    requires Held(f) && UdpAction(a)
    ensures Held(Step(f, a).0)
    ensures forall now :: Proper(Verdict(now, a, Step(f, a).1))
  {
    if Restricted(f) {
      ExpectHeld(f, a);
    } else {
      DispatchHeld(f, a);
    }
  }

  // ------------------------------------------------------------------- no chat before login

  function Kinds(sent: seq<Original>): seq<Kind> {
    Map((o: Original) => o.kind, sent)
  }

  lemma KindsLast(sent: seq<Original>, more: seq<Original>)
    requires sent <= more && |more| == |sent| + 1
    ensures Kinds(more) == Kinds(sent) + [more[|sent|].kind]
  {
  }

  ghost predicate Orderly(u: Udp) {
    Held(u.fsm) && Lawful(u.fsm, Kinds(u.link.sent), u.verdicts)
  }

  lemma AskedOrderly(u: Udp, v: Udp, asked: seq<Action>)
    requires Orderly(u) && Asked(u, v, asked) && v.link == u.link
    requires |asked| == 1 ==> UdpAction(asked[0])
    ensures Orderly(v)
    ensures |asked| == 1 && asked[0] in {JoinUser, MessageUser} && Step(u.fsm, asked[0]).1 == Allow ==>
      LoggedIn(v.verdicts, |u.link.sent|)
  {
    if |asked| == 1 {
      StepHeld(u.fsm, asked[0]);
      assert Proper(Verdict(|u.link.sent|, asked[0], Step(u.fsm, asked[0]).1));
      ConsultLawful(u.fsm, Kinds(u.link.sent), u.verdicts, asked[0]);
    }
  }

  lemma StepOrderly(u: Udp, v: Udp, asked: seq<Action>, m: Move)
    requires Orderly(u) && Asked(u, v, asked) && v.link == Apply(u.link, m)
    requires |asked| == 1 ==> UdpAction(asked[0])
    requires m.Submit? && m.kind in {JoinChannel, Chat} ==>
      asked == [ActionOf(m.kind)] && Step(u.fsm, asked[0]).1 == Allow
    ensures Orderly(v)
  {
    AskedOrderly(u, v.(link := u.link), asked);
    ApplyGrows(u.link, m);
    var before, after := u.link.sent, v.link.sent;
    if |after| > |before| {
      SayLawful(v.fsm, Kinds(before), v.verdicts, after[|before|].kind);
      assert Kinds(after) == Kinds(before) + [after[|before|].kind] by { KindsLast(before, after); }
    } else {
      assert after == before;
    }
  }

  lemma ServerOrderly(u: Udp, d: Datagram)
    requires Orderly(u)
    ensures Orderly(ServerStep(u, d).0)
  {
    var asked := ServerAsks(u, d);
    var m := ServerMove(u, d);
    StepOrderly(u, ServerStep(u, d).0, asked, m);
  }

  lemma UserOrderly(u: Udp, line: Text)
    requires Orderly(u)
    ensures Orderly(UserStep(u, line).0)
  {
    var asked := UserAsks(u, line);
    var m := UserMove(u, line);
    if m.Submit? {
      assert Apply(u.link, m).sent[|u.link.sent|].kind == m.kind;
    }
    StepOrderly(u, UserStep(u, line).0, asked, m);
  }

  /** The machine gives one of the two answers there is a branch for. */
  lemma StepIsProper(f: Fsm, a: Action)
    requires Held(f) && UdpAction(a)
    ensures GetSource(a) == User ==> Step(f, a).1 in {Allow, Warn}
    ensures GetSource(a) == Server ==> Step(f, a).1 in {Allow, Fail}
  {
    StepHeld(f, a);
    assert Proper(Verdict(0, a, Step(f, a).1));
  }

  lemma ReplyIsAnswered(u: Udp, positive: bool, id: MsgId, ref: MsgId, text: Text)
    requires Held(u.fsm)
    ensures Replied(u, positive, id, ref, text).1 != Indeterminate
  {
    StepIsProper(u.fsm, if positive then ReplyServer else NReplyServer);
  }

  /** The server's datagrams always get a defined state back. */
  lemma ServerIsAnswered(u: Udp, d: Datagram)
    requires Held(u.fsm)
    ensures ServerStep(u, d).1 != Indeterminate
  {
    if ReadsAsReply(d) {
      ReplyIsAnswered(u, Positive(d), IdOf(d), RefOf(d), Fields(d[6..])[0]);
    }
  }

  predicate Renames(u: Udp, line: Text) {
    && line != "/exit" && !u.link.errorPending
    && ToUpper(Command(line)) == "/RENAME" && ValidName(Argument(line))
  }

  /** The user's lines get one, with a single exception. */
  lemma UserIsAnswered(u: Udp, line: Text)
    requires Held(u.fsm)
    ensures UserStep(u, line).1 == Indeterminate <==> Renames(u, line)
  {
    StepIsProper(u.fsm, AuthorizeUser);
    StepIsProper(u.fsm, JoinUser);
    StepIsProper(u.fsm, MessageUser);
  }

  lemma TockOrderly(c: Client, e: Event)
    requires Orderly(c.udp)
    ensures Orderly(Tock(c, e).udp)
  {
    match e {
      case FromServer(d) => ServerOrderly(c.udp, d);
      case FromUser(line, _) => UserOrderly(c.udp, line);
      case Interrupt => UserOrderly(c.udp, "/exit");
      case EndOfInput => UserOrderly(c.udp, "/exit");
      case Timeout =>
    }
  }

  lemma {:induction false} RunOrderly(max: nat, events: seq<Event>)
    ensures Orderly(Run(Launch(max), events).udp)
  {
    if |events| > 0 {
      var init := events[..|events| - 1];
      RunOrderly(max, init);
      TockOrderly(Run(Launch(max), init), events[|events| - 1]);
    }
  }

  /** A JOIN or MSG is sent only after an authorization was accepted and, after that, a positive
      reply, whatever the roll-backs did in between. */
  lemma NoChatBeforeLogin(max: nat, events: seq<Event>, k: nat)
    requires var sent := Run(Launch(max), events).udp.link.sent;
      k < |sent| && sent[k].kind in {JoinChannel, Chat}
    ensures LoggedIn(Run(Launch(max), events).udp.verdicts, k)
  {
    RunOrderly(max, events);
  }

  /** Every consultation gets one of the two answers its side of the conversation has a branch
      for: the machine never answers OVER to this handler, nor nothing at all. */
  lemma EveryAnswerIsHandled(max: nat, events: seq<Event>, k: nat)
    requires k < |Run(Launch(max), events).udp.verdicts|
    ensures Proper(Run(Launch(max), events).udp.verdicts[k])
  {
    RunOrderly(max, events);
  }

  /** In every reachable client the only call without a return value is a successful rename. */
  lemma OnlyRenameRunsOff(max: nat, events: seq<Event>, line: Text, d: Datagram)
    ensures var u := Run(Launch(max), events).udp;
      && (UserStep(u, line).1 == Indeterminate <==> Renames(u, line))
      && ServerStep(u, d).1 != Indeterminate
  {
    RunOrderly(max, events);
    UserIsAnswered(Run(Launch(max), events).udp, line);
    ServerIsAnswered(Run(Launch(max), events).udp, d);
  }

  // -------------------------------------------------------------------- at-most-once display

  predicate FromOthers(line: Line) {
    line.FromPeer? || line.FromPeerError?
  }

  function IdShown(line: Line): MsgId {
    match line
    case FromPeer(id, _, _) => id
    case FromPeerError(id, _, _) => id
    case _ => NONE
  }

  predicate Answers(line: Line, ref: MsgId) {
    match line
    case Answered(_, r, _) => r == ref
    case _ => false
  }

  /** Displayed messages and errors have pairwise distinct identifiers, all of them recorded. */
  predicate Distinct(shown: seq<Line>, received: seq<MsgId>) {
    && (forall i :: 0 <= i < |shown| && FromOthers(shown[i]) ==> IdShown(shown[i]) in received)
    && (forall i, j :: 0 <= i < j < |shown| && FromOthers(shown[i]) && FromOthers(shown[j]) ==>
          IdShown(shown[i]) != IdShown(shown[j]))
  }

  /** What one event may do to the terminal, the record of identifiers and the reply awaited. */
  datatype Effect = Silent | Told | Peer | Consumed

  predicate Has(u: Udp, v: Udp, e: Effect) {
    match e
    case Silent => v.shown == u.shown && u.received <= v.received && v.awaitReply == u.awaitReply
    case _ =>
      && |v.shown| == |u.shown| + 1 && u.shown <= v.shown && u.received <= v.received
      && var line := v.shown[|u.shown|];
         match e
         case Peer =>
           FromOthers(line) && IdShown(line) !in u.received && IdShown(line) in v.received
           && v.awaitReply == u.awaitReply
         case Consumed => Answers(line, u.awaitReply) && v.awaitReply == NONE
         case _ => (line.Internal? || line.Help?) && v.awaitReply == u.awaitReply
  }

  lemma RepliedEffect(u: Udp, positive: bool, id: MsgId, ref: MsgId, text: Text) returns (e: Effect)
    ensures e in {Silent, Consumed} && Has(u, Replied(u, positive, id, ref, text).0, e)
  {
    e := if |Replied(u, positive, id, ref, text).0.shown| > |u.shown| then Consumed else Silent;
  }

  lemma ReplyEffect(u: Udp, d: Datagram) returns (e: Effect)
    ensures e in {Silent, Consumed} && Has(u, OnReplyRecord(u, d).0, e)
  {
    e := Silent;
    if |d| >= 6 && Readable(OnReply, d[6..]) && d[3] in {POSITIVE, NEGATIVE} {
      e := RepliedEffect(u, d[3] == POSITIVE, IdOf(d), Decode16(d[4], d[5]), Fields(d[6..])[0]);
    }
  }

  lemma MsgEffect(u: Udp, d: Datagram) returns (e: Effect)
    ensures e in {Silent, Peer} && Has(u, OnMsgRecord(u, d).0, e)
  {
    e := if |OnMsgRecord(u, d).0.shown| > |u.shown| then Peer else Silent;
  }

  lemma ErrEffect(u: Udp, d: Datagram) returns (e: Effect)
    ensures e in {Silent, Peer} && Has(u, OnErrRecord(u, d).0, e)
  {
    e := if |OnErrRecord(u, d).0.shown| > |u.shown| then Peer else Silent;
  }

  lemma ServerEffect(u: Udp, d: Datagram) returns (e: Effect)
    ensures Has(u, ServerStep(u, d).0, e)
  {
    if d[0] == REPLY {
      e := ReplyEffect(u, d);
    } else if d[0] == MSG {
      e := MsgEffect(u, d);
    } else if d[0] == ERR {
      e := ErrEffect(u, d);
    } else {
      e := Silent;
    }
  }

  lemma HasKeepsDistinct(u: Udp, v: Udp, e: Effect)
    requires Distinct(u.shown, u.received) && Has(u, v, e)
    ensures Distinct(v.shown, v.received)
  {
  }

  lemma NoticeKeepsDistinct(shown: seq<Line>, more: seq<Line>, received: seq<MsgId>)
    requires Distinct(shown, received) && Notice(shown, more)
    ensures Distinct(more, received)
  {
  }

  lemma {:induction false} DisplayedAtMostOnce(max: nat, events: seq<Event>)
    ensures var u := Run(Launch(max), events).udp; Distinct(u.shown, u.received)
  {
    if |events| > 0 {
      var init := events[..|events| - 1];
      DisplayedAtMostOnce(max, init);
      TockKeepsDistinct(Run(Launch(max), init), events[|events| - 1]);
    }
  }

  lemma TockKeepsDistinct(c: Client, e: Event)
    requires Distinct(c.udp.shown, c.udp.received)
    ensures Distinct(Tock(c, e).udp.shown, Tock(c, e).udp.received)
  {
    match e {
      case FromServer(d) =>
        var x := ServerEffect(c.udp, d);
        HasKeepsDistinct(c.udp, ServerStep(c.udp, d).0, x);
      case FromUser(line, _) =>
        var m := UserMove(c.udp, line);
        NoticeKeepsDistinct(c.udp.shown, UserStep(c.udp, line).0.shown, c.udp.received);
      case _ =>
    }
  }

  /** A chat message the session lets through. */
  predicate AcceptedMsg(u: Udp, d: Datagram) {
    d[0] == MSG && |d| >= 3 && Readable(OnMsg, d[3..]) && Step(u.fsm, MessageServer).1 == Allow
  }

  /** The line such a datagram puts on the terminal. */
  function LineOf(d: Datagram): Line
    requires d[0] in {MSG, ERR} && |d| >= 3 && Readable(OnMsg, d[3..])
  {
    var fields := Fields(d[3..]);
    if d[0] == MSG then FromPeer(IdOf(d), fields[0], fields[1]) else FromPeerError(IdOf(d), fields[0], fields[1])
  }

  /** A message the session accepts is shown exactly when its identifier is new, and in either
      case confirmed with that identifier. */
  lemma AcceptedMessage(u: Udp, d: Datagram)
    requires AcceptedMsg(u, d)
    ensures var v := ServerStep(u, d).0;
      && v.shown == u.shown + (if IdOf(d) in u.received then [] else [LineOf(d)])
      && (IdOf(d) in v.received)
      && v.receipts == u.receipts + [Receipt(|u.link.sent|, IdOf(d))]
      && v.link == u.link
  {
  }

  /** The same for a server error, which is answered with a BYE every time. */
  lemma AcceptedError(u: Udp, d: Datagram)
    requires AcceptedErr(u, d)
    ensures var v := ServerStep(u, d).0;
      && v.shown == u.shown + (if IdOf(d) in u.received then [] else [LineOf(d)])
      && (IdOf(d) in v.received)
      && v.receipts == u.receipts + [Receipt(|u.link.sent|, IdOf(d))]
      && |v.link.sent| == |u.link.sent| + 1 && v.link.sent[|u.link.sent|].kind == Farewell
  {
  }

  /** What is shown and recorded stays; at most one line is added, and if that is a reply it
      names what was awaited. */
  predicate Adds(u: Udp, v: Udp) {
    && u.received <= v.received && u.shown <= v.shown && |v.shown| <= |u.shown| + 1
    && (|v.shown| > |u.shown| && v.shown[|u.shown|].Answered? ==> v.shown[|u.shown|].ref == u.awaitReply)
  }

  lemma TockAdds(c: Client, e: Event)
    ensures Adds(c.udp, Tock(c, e).udp)
  {
    match e {
      case FromServer(d) => var x := ServerEffect(c.udp, d);
      case FromUser(line, _) => var m := UserMove(c.udp, line);
      case Timeout =>
      case _ => var m := UserMove(c.udp, "/exit");
    }
  }

  lemma {:induction false} RunOnlyAdds(c: Client, events: seq<Event>)
    ensures c.udp.shown <= Run(c, events).udp.shown && c.udp.received <= Run(c, events).udp.received
  {
    if |events| > 0 {
      RunOnlyAdds(c, events[..|events| - 1]);
      TockAdds(Run(c, events[..|events| - 1]), events[|events| - 1]);
    }
  }

  /** The only line from others with this identifier is the one at position `n`. */
  predicate OnlyLineOf(shown: seq<Line>, id: MsgId, n: nat) {
    forall k :: 0 <= k < |shown| && FromOthers(shown[k]) && IdShown(shown[k]) == id ==> k == n
  }

  /** A new message or error, accepted at any point of any run, is on the terminal from then on,
      whatever follows, and nothing else with its identifier ever is; and it has been confirmed. */
  lemma ShownOnceForAll(max: nat, before: seq<Event>, d: Datagram, rest: seq<Event>)
    requires Run(Launch(max), before).state != Closed
    requires var u := Run(Launch(max), before).udp;
      (AcceptedMsg(u, d) || AcceptedErr(u, d)) && IdOf(d) !in u.received
    ensures var n := |Run(Launch(max), before).udp.shown|;
      var u := Run(Launch(max), before + [FromServer(d)] + rest).udp;
      && n < |u.shown| && u.shown[n] == LineOf(d) && OnlyLineOf(u.shown, IdOf(d), n)
      && Receipted(u.receipts, IdOf(d))
  {
    var start, e := Run(Launch(max), before), FromServer(d);
    assert (before + [e])[..|before|] == before;
    assert Run(Launch(max), before + [e]) == Tock(start, e);
    if d[0] == MSG {
      AcceptedMessage(start.udp, d);
    } else {
      AcceptedError(start.udp, d);
    }
    RunInTwo(Launch(max), before + [e], rest);
    RunOnlyAdds(Tock(start, e), rest);
    DisplayedAtMostOnce(max, before + [e] + rest);
    RecordedAreConfirmed(max, before + [e] + rest);
  }

  /** The event is a readable MSG or ERR with this line in it. */
  predicate Carries(e: Event, line: Line) {
    && e.FromServer? && e.d[0] in {MSG, ERR} && |e.d| >= 3 && Readable(OnMsg, e.d[3..])
    && LineOf(e.d) == line
  }

  predicate CameFrom(events: seq<Event>, line: Line) {
    exists k :: 0 <= k < |events| && Carries(events[k], line)
  }

  lemma MsgShowsItsLine(u: Udp, d: Datagram)
    requires d[0] == MSG && |OnMsgRecord(u, d).0.shown| > |u.shown|
    ensures |OnMsgRecord(u, d).0.shown| == |u.shown| + 1
    ensures Carries(FromServer(d), OnMsgRecord(u, d).0.shown[|u.shown|])
  {
  }

  lemma ErrShowsItsLine(u: Udp, d: Datagram)
    requires d[0] == ERR && |OnErrRecord(u, d).0.shown| > |u.shown|
    ensures |OnErrRecord(u, d).0.shown| == |u.shown| + 1
    ensures Carries(FromServer(d), OnErrRecord(u, d).0.shown[|u.shown|])
  {
  }

  lemma ServerShowsItsLine(u: Udp, d: Datagram)
    requires |ServerStep(u, d).0.shown| > |u.shown| && FromOthers(ServerStep(u, d).0.shown[|u.shown|])
    ensures Carries(FromServer(d), ServerStep(u, d).0.shown[|u.shown|])
  {
    if d[0] == REPLY {
      var x := ReplyEffect(u, d);
    } else if d[0] == MSG {
      MsgShowsItsLine(u, d);
    } else if d[0] == ERR {
      ErrShowsItsLine(u, d);
    }
  }

  lemma TockShowsItsLine(c: Client, e: Event)
    requires |Tock(c, e).udp.shown| > |c.udp.shown| && FromOthers(Tock(c, e).udp.shown[|c.udp.shown|])
    ensures Carries(e, Tock(c, e).udp.shown[|c.udp.shown|])
  {
    match e {
      case FromServer(d) => ServerShowsItsLine(c.udp, d);
      case FromUser(line, _) => var m := UserMove(c.udp, line);
      case Timeout =>
      case _ => var m := UserMove(c.udp, "/exit");
    }
  }

  predicate AllCameFrom(events: seq<Event>, shown: seq<Line>) {
    forall k :: 0 <= k < |shown| && FromOthers(shown[k]) ==> CameFrom(events, shown[k])
  }

  lemma CameFromGrows(events: seq<Event>, e: Event, line: Line)
    requires CameFrom(events, line) || Carries(e, line)
    ensures CameFrom(events + [e], line)
  {
    var all := events + [e];
    if CameFrom(events, line) {
      var k :| 0 <= k < |events| && Carries(events[k], line);
      assert all[k] == events[k];
    } else {
      assert all[|events|] == e;
    }
  }

  lemma AddedCameFrom(events: seq<Event>, e: Event, shown: seq<Line>, more: seq<Line>)
    requires AllCameFrom(events, shown) && shown <= more && |more| <= |shown| + 1
    requires |more| > |shown| && FromOthers(more[|shown|]) ==> Carries(e, more[|shown|])
    ensures AllCameFrom(events + [e], more)
  {
    forall k | 0 <= k < |more| && FromOthers(more[k]) ensures CameFrom(events + [e], more[k]) {
      assert k < |shown| ==> more[k] == shown[k];
      CameFromGrows(events, e, more[k]);
    }
  }

  /** Over every run, every chat message and error on the terminal is the content of a datagram
      that arrived. */
  lemma {:induction false} ShownCameFromServer(max: nat, events: seq<Event>)
    ensures AllCameFrom(events, Run(Launch(max), events).udp.shown)
  {
    if |events| > 0 {
      var init, e := events[..|events| - 1], events[|events| - 1];
      var c := Run(Launch(max), init);
      ShownCameFromServer(max, init);
      TockAdds(c, e);
      if |Tock(c, e).udp.shown| > |c.udp.shown| && FromOthers(Tock(c, e).udp.shown[|c.udp.shown|]) {
        TockShowsItsLine(c, e);
      }
      AddedCameFrom(init, e, c.udp.shown, Tock(c, e).udp.shown);
      assert init + [e] == events;
    }
  }

  /** A message another client printed, met in OPEN at any point of any run under a new identifier,
      is on the terminal with its name and content from then on, once and for all. */
  lemma MessageArrives(max: nat, before: seq<Event>, d: Datagram, id: MsgId, name: Text, content: Text,
      rest: seq<Event>)
    requires Run(Launch(max), before).state != Closed && Run(Launch(max), before).udp.fsm.current == Open
    requires ValidName(name) && ValidContent(content) && id !in Run(Launch(max), before).udp.received
    requires d == Record(MSG, id, [name, content])
    ensures var n := |Run(Launch(max), before).udp.shown|;
      var u := Run(Launch(max), before + [FromServer(d)] + rest).udp;
      && n < |u.shown| && u.shown[n] == FromPeer(id, name, content) && OnlyLineOf(u.shown, id, n)
      && Receipted(u.receipts, id)
  {
    MessageRoundTrip(MSG, id, name, content);
    RunOrderly(max, before);
    ShownOnceForAll(max, before, d, rest);
  }

  // ---------------------------------------------------------------------------- reply credit

  function Asks(sent: seq<Original>): nat {
    if |sent| == 0 then 0
    else Asks(sent[..|sent| - 1]) + if sent[|sent| - 1].kind in {Authorize, JoinChannel} then 1 else 0
  }

  /** The identifier of the latest AUTH or JOIN; 0 before there is one. */
  function LatestAsk(sent: seq<Original>): MsgId {
    if |sent| == 0 then 0
    else if sent[|sent| - 1].kind in {Authorize, JoinChannel} then sent[|sent| - 1].id
    else LatestAsk(sent[..|sent| - 1])
  }

  /** Displayed replies that name a request. */
  function Replies(shown: seq<Line>): nat {
    if |shown| == 0 then 0
    else
      var last := shown[|shown| - 1];
      Replies(shown[..|shown| - 1]) + if last.Answered? && last.ref != NONE then 1 else 0
  }

  predicate Credit(u: Udp) {
    && u.awaitReply in {NONE, LatestAsk(u.link.sent)}
    && Replies(u.shown) + (if u.awaitReply == NONE then 0 else 1) <= 1 + Asks(u.link.sent)
  }

  lemma ShownCount(shown: seq<Line>, more: seq<Line>)
    requires |more| == |shown| + 1 && shown <= more
    ensures var line := more[|shown|];
      Replies(more) == Replies(shown) + if line.Answered? && line.ref != NONE then 1 else 0
  {
    assert more[..|shown|] == shown;
  }

  lemma SentCount(sent: seq<Original>, more: seq<Original>)
    requires |more| == |sent| + 1 && sent <= more
    ensures var o := more[|sent|];
      && Asks(more) == Asks(sent) + (if o.kind in {Authorize, JoinChannel} then 1 else 0)
      && LatestAsk(more) == (if o.kind in {Authorize, JoinChannel} then o.id else LatestAsk(sent))
  {
    assert more[..|sent|] == sent;
  }

  lemma MoveCount(l: Link, m: Move)
    requires m.Submit? ==> Request(m.kind)
    ensures var r := Apply(l, m);
      if m.Submit? && m.kind != Chat then Asks(r.sent) == Asks(l.sent) + 1 && LatestAsk(r.sent) == l.next
      else Asks(r.sent) == Asks(l.sent) && LatestAsk(r.sent) == LatestAsk(l.sent)
  {
    var r := Apply(l, m);
    ApplyGrows(l, m);
    if |r.sent| > |l.sent| {
      SentCount(l.sent, r.sent);
    }
  }

  lemma HasCredit(u: Udp, v: Udp, e: Effect, m: Move)
    requires Credit(u) && Has(u, v, e) && v.link == Apply(u.link, m) && !m.Submit?
    ensures Credit(v)
  {
    MoveCount(u.link, m);
    if |v.shown| > |u.shown| {
      ShownCount(u.shown, v.shown);
    }
  }

  lemma SendsCredit(u: Udp, v: Udp, m: Move)
    requires Credit(u) && Sends(u, v, m) && (m.Submit? ==> Request(m.kind))
    ensures Credit(v)
  {
    MoveCount(u.link, m);
    if v.shown != u.shown {
      ShownCount(u.shown, v.shown);
    }
  }

  lemma TockCredit(c: Client, e: Event)
    requires Credit(c.udp)
    ensures Credit(Tock(c, e).udp)
  {
    match e {
      case FromServer(d) =>
        var x := ServerEffect(c.udp, d);
        var m := ServerMove(c.udp, d);
        HasCredit(c.udp, ServerStep(c.udp, d).0, x, m);
      case FromUser(line, _) =>
        var m := UserMove(c.udp, line);
        SendsCredit(c.udp, UserStep(c.udp, line).0, m);
      case Timeout =>
      case _ =>
        var m := UserMove(c.udp, "/exit");
        SendsCredit(c.udp, UserStep(c.udp, "/exit").0, m);
    }
  }

  /** No more replies naming a request are displayed than requests were sent, but for one: the
      identifier 0 counts as awaited before anything was asked. */
  lemma {:induction false} ReplyCredit(max: nat, events: seq<Event>)
    ensures Credit(Run(Launch(max), events).udp)
  {
    if |events| > 0 {
      var init := events[..|events| - 1];
      ReplyCredit(max, init);
      TockCredit(Run(Launch(max), init), events[|events| - 1]);
    }
  }

  // ------------------------------------------------------------------ what replies are about

  /** `ref` stands for no reply at all, for the first identifier, or for an AUTH or JOIN sent. */
  predicate AskedFor(sent: seq<Original>, ref: MsgId) {
    || ref in {NONE, 0}
    || (exists k :: 0 <= k < |sent| && sent[k].kind in {Authorize, JoinChannel} && sent[k].id == ref)
  }

  predicate RepliesAskedFor(u: Udp) {
    forall k :: 0 <= k < |u.shown| && u.shown[k].Answered? ==> AskedFor(u.link.sent, u.shown[k].ref)
  }

  lemma AskedForGrows(sent: seq<Original>, more: seq<Original>, ref: MsgId)
    requires AskedFor(sent, ref) && sent <= more
    ensures AskedFor(more, ref)
  {
    if ref !in {NONE, 0} {
      var k :| 0 <= k < |sent| && sent[k].kind in {Authorize, JoinChannel} && sent[k].id == ref;
      assert more[k] == sent[k];
    }
  }

  lemma {:induction false} LatestIsAskedFor(sent: seq<Original>)
    ensures AskedFor(sent, LatestAsk(sent))
  {
    if |sent| > 0 && sent[|sent| - 1].kind !in {Authorize, JoinChannel} {
      LatestIsAskedFor(sent[..|sent| - 1]);
      AskedForGrows(sent[..|sent| - 1], sent, LatestAsk(sent));
    }
  }

  lemma TockSendsMore(c: Client, e: Event)
    requires Inv(c)
    ensures c.udp.link.sent <= Tock(c, e).udp.link.sent
  {
    var m := TockMove(c, e);
    ApplyGrows(c.udp.link, m);
  }

  lemma AddsAskedFor(u: Udp, v: Udp)
    requires RepliesAskedFor(u) && Adds(u, v) && u.link.sent <= v.link.sent
    requires u.awaitReply in {NONE, LatestAsk(u.link.sent)}
    ensures RepliesAskedFor(v)
  {
    LatestIsAskedFor(u.link.sent);
    forall k | 0 <= k < |v.shown| && v.shown[k].Answered? ensures AskedFor(v.link.sent, v.shown[k].ref) {
      assert k < |u.shown| ==> v.shown[k] == u.shown[k];
      AskedForGrows(u.link.sent, v.link.sent, v.shown[k].ref);
    }
  }

  /** Over every run a displayed reply names an AUTH or JOIN that was sent, or 65535, which
      stands for none, or 0, which is awaited from the start. */
  lemma {:induction false} ShownRepliesWereAskedFor(max: nat, events: seq<Event>)
    ensures RepliesAskedFor(Run(Launch(max), events).udp)
  {
    if |events| > 0 {
      var init := events[..|events| - 1];
      ShownRepliesWereAskedFor(max, init);
      RunKeeps(max, init);
      ReplyCredit(max, init);
      TockAdds(Run(Launch(max), init), events[|events| - 1]);
      TockSendsMore(Run(Launch(max), init), events[|events| - 1]);
      AddsAskedFor(Run(Launch(max), init).udp, Run(Launch(max), events).udp);
    }
  }
}
