/** What the UDP client can still do once it has said BYE. */
module UdpFarewell {
  import opened Octets
  import opened Grammar
  import opened UdpRecords
  import opened Session
  import opened Common
  import opened CommandLines
  import opened UdpMachine
  import opened UdpDelivery
  import opened UdpSession

  // ---------------------------------------------------------------------------- after the BYE

  /** Some continuation originates another AUTH, JOIN or MSG. */
  ghost predicate CanAsk(c: Client) {
    exists more: seq<Event> :: !NoNewRequest(c.udp.link, Run(c, more).udp.link)
  }

  /** Where an accepted ERR leaves the session: rolled forward into END with AUTH or OPEN to roll
      back to, or still in AUTH, if it was on the list there. */
  predicate Told(f: Fsm) {
    || (f.current == End && f.expected == [ByeUser] && f.previous in {Auth, Open})
    || (f.current == Auth && f.expected == [Any])
  }

  /** In END the line is refused, but the session is rolled back. */
  lemma RefusedInEnd(u: Udp, line: Text)
    requires ChatLine(line) && !u.link.errorPending
    requires u.fsm.current == End && u.fsm.expected == [ByeUser]
    ensures var (v, r) := UserStep(u, line);
      v.link == u.link && r == ReadyForInput && v.fsm == Fsm(u.fsm.previous, u.fsm.previous, [Any])
  {
    ChatIsText(u, line);
  }

  lemma ThreeWords(a: Text, b: Text, c: Text)
    requires Free(a, SP) && Free(b, SP) && Free(c, SP)
    ensures Split(a + [SP] + b + [SP] + c, SP) == [a, b, c]
  {
    SplitFree(a, SP);
    SplitFree(b, SP);
    SplitFree(c, SP);
    SplitConcat(a, b, SP);
    SplitConcat(a + [SP] + b, c, SP);
  }

  lemma CredentialsCanBeTyped(id: Text, secret: Text, name: Text) returns (line: Text)
    requires ValidId(id) && ValidSecret(secret) && ValidName(name) && Free(name, SP)
    ensures AuthorizeLine(line)
  {
    WordsAreClean(id, 20);
    WordsAreClean(secret, 128);
    ThreeWords(id, secret, name);
    var argument := id + [SP] + secret + [SP] + name;
    line := "/auth" + [SP] + argument;
    CommandOf("/auth", argument);
    assert ToUpper("/auth") == "/AUTH";
  }

  lemma AsksAgainInAuth(c: Client, auth: Text)
    requires c.state == ReadyForInput && !c.udp.link.errorPending && AuthorizeLine(auth)
    requires c.udp.fsm.current == Auth && !Restricted(c.udp.fsm)
    ensures !NoNewRequest(c.udp.link, Tock(c, FromUser(auth, Closed)).udp.link)
  {
    assert |auth| > 0;
    AuthIsSent(c.udp, auth);
    LineIsTaken(c, auth, Closed);
  }

  lemma AsksAgainInOpen(c: Client, chat: Text)
    requires c.state == ReadyForInput && !c.udp.link.errorPending && ChatLine(chat)
    requires c.udp.fsm.current == Open && !Restricted(c.udp.fsm)
    ensures !NoNewRequest(c.udp.link, Tock(c, FromUser(chat, Closed)).udp.link)
  {
    ChatIsSent(c.udp, chat);
    LineIsTaken(c, chat, Closed);
  }

  /** A listening client that has been told and has nothing to report asks again within two lines. */
  lemma AsksAgain(c: Client)
    requires c.state == ReadyForInput && Told(c.udp.fsm) && !c.udp.link.errorPending
    ensures CanAsk(c)
  {
    var chat := "a";
    var auth := CredentialsCanBeTyped("a", "a", "a");
    if c.udp.fsm.current == Auth {
      AsksAgainInAuth(c, auth);
      CanAskWithin(c, FromUser(auth, Closed), Timeout);
    } else {
      var back := Tock(c, FromUser(chat, Closed));
      RefusedInEnd(c.udp, chat);
      LineIsTaken(c, chat, Closed);
      var next := if back.udp.fsm.current == Open then chat else auth;
      if back.udp.fsm.current == Open {
        AsksAgainInOpen(back, chat);
      } else {
        AsksAgainInAuth(back, auth);
      }
      CanAskWithin(c, FromUser(chat, Closed), FromUser(next, Closed));
    }
  }

  lemma CanAskWithin(c: Client, a: Event, b: Event)
    requires var one := Tock(c, a);
      || !NoNewRequest(c.udp.link, one.udp.link)
      || !NoNewRequest(c.udp.link, Tock(one, b).udp.link)
    ensures CanAsk(c)
  {
    RunOfTwo(c, a, b);
    assert !NoNewRequest(c.udp.link, Run(c, [a]).udp.link) || !NoNewRequest(c.udp.link, Run(c, [a, b]).udp.link);
  }

  lemma AcceptedErrStep(f: Fsm)
    requires Held(f) && Step(f, ErrorServer).1 == Allow
    ensures Told(Step(f, ErrorServer).0)
  {
  }

  lemma FinalErrorLeaves(u: Udp, id: MsgId, name: Text, text: Text)
    ensures var (v, r) := OnFinalError(u, id, name, text);
      && Originates(u.link, v.link, Farewell) && v.fsm == u.fsm && v.link.awaitingOver
      && v.link.waiting == (u.link.waiting || id in u.received)
      && v.link.errorPending == u.link.errorPending
      && (!v.link.waiting ==> r == ReadyForInput)
  {
  }

  /** An accepted ERR in any live, reachable client sends BYE. */
  lemma AcceptedErrTells(c: Client, d: Datagram)
    requires c.state != Closed && Held(c.udp.fsm) && AcceptedErr(c.udp, d)
    ensures var n := Tock(c, FromServer(d));
      && Originates(c.udp.link, n.udp.link, Farewell) && Told(n.udp.fsm) && n.udp.link.awaitingOver
      && n.udp.link.waiting == (c.udp.link.waiting || IdOf(d) in c.udp.received)
      && n.udp.link.errorPending == c.udp.link.errorPending
      && n.state == if n.udp.link.waiting then WaitingForConfirmation else ReadyForInput
  {
    AcceptedErrStep(c.udp.fsm);
    FinalErrorLeaves(Consult(c.udp, ErrorServer).0, IdOf(d), Fields(d[3..])[0], Fields(d[3..])[1]);
    DatagramIsTaken(c, d);
  }

  /** After the BYE that answers a server's ERR, at any point of any run, another AUTH or MSG can
      be sent if and only if nothing was waited for, the ERR was new and no error was put off. */
  lemma AskingAfterErrExactly(max: nat, before: seq<Event>, d: Datagram)
    requires Run(Launch(max), before).state != Closed && AcceptedErr(Run(Launch(max), before).udp, d)
    ensures var u := Run(Launch(max), before).udp;
      CanAsk(Tock(Run(Launch(max), before), FromServer(d)))
      <==> !u.link.waiting && IdOf(d) !in u.received && !u.link.errorPending
  {
    var c := Run(Launch(max), before);
    RunOrderly(max, before);
    AcceptedErrTells(c, d);
    AskingExactly(Tock(c, FromServer(d)));
  }

  lemma AskingExactly(c: Client)
    requires c.state == if c.udp.link.waiting then WaitingForConfirmation else ReadyForInput
    requires c.udp.link.awaitingOver && (c.udp.link.waiting || Told(c.udp.fsm))
    ensures CanAsk(c) <==> !c.udp.link.waiting && !c.udp.link.errorPending
  {
    if c.udp.link.waiting || c.udp.link.errorPending {
      forall more: seq<Event> ensures NoNewRequest(c.udp.link, Run(c, more).udp.link) {
        if c.udp.link.waiting {
          NothingAfterAwaitedBye(c, more);
        } else {
          PendingErrorSilences(c, more);
        }
      }
    } else {
      AsksAgain(c);
    }
  }

  predicate SaysBye(c: Client, e: Event) {
    Originates(c.udp.link, Tock(c, e).udp.link, Farewell)
  }

  /** A BYE is either waited for, or the answer to an accepted ERR. */
  lemma ByeIsAwaitedOrToldOff(c: Client, e: Event)
    requires Inv(c) && c.state != Closed && SaysBye(c, e)
    requires !(e.FromServer? && AcceptedErr(c.udp, e.d))
    ensures var n := Tock(c, e);
      n.state == WaitingForConfirmation && n.udp.link.waiting && n.udp.link.awaitingOver
  {
    match e {
      case FromServer(d) =>
        var m := ServerMove(c.udp, d);
        if m.Heard? {
          HeardGrows(c.udp.link, m.id);
        }
      case FromUser(line, _) => var m := UserMove(c.udp, line);
      case Timeout =>
      case _ => var m := UserMove(c.udp, "/exit");
    }
  }

  /** After any BYE, at any point of any run: another AUTH, JOIN or MSG can still be sent if and
      only if the BYE is not waited for and no error is put off. */
  lemma AskingAfterByeExactly(max: nat, before: seq<Event>, e: Event)
    requires Run(Launch(max), before).state != Closed && SaysBye(Run(Launch(max), before), e)
    ensures var c := Tock(Run(Launch(max), before), e);
      CanAsk(c) <==> !c.udp.link.waiting && !c.udp.link.errorPending
  {
    var c := Run(Launch(max), before);
    RunKeeps(max, before);
    RunOrderly(max, before);
    if e.FromServer? && AcceptedErr(c.udp, e.d) {
      AcceptedErrTells(c, e.d);
    } else {
      ByeIsAwaitedOrToldOff(c, e);
    }
    AskingExactly(Tock(c, e));
  }

  /** In particular in OPEN: the next line is refused but rolls the session back, and the one
      after it is sent, with the BYE still unconfirmed. */
  lemma ChatAfterBye(u: Udp, d: Datagram, line: Text)
    requires u.fsm.current == Open && !Restricted(u.fsm) && AcceptedErr(u, d) && ChatLine(line)
    requires !u.link.waiting && !u.link.errorPending && IdOf(d) !in u.received
    ensures var told := ServerStep(u, d);
      var refused := UserStep(told.0, line);
      && told.1 == ReadyForInput && refused.1 == ReadyForInput
      && Originates(u.link, told.0.link, Farewell) && refused.0.link == told.0.link
      && Originates(refused.0.link, UserStep(refused.0, line).0.link, Chat)
  {
    var told := ServerStep(u, d).0;
    RefusedInEnd(told, line);
    ChatIsSent(UserStep(told, line).0, line);
  }

  /** Whereas a BYE that is waited for is the last word: no request follows it in any run. */
  lemma {:induction false} NothingAfterAwaitedBye(c: Client, events: seq<Event>)
    requires Closing(c) && c.udp.link.awaitingOver
    ensures NoNewRequest(c.udp.link, Run(c, events).udp.link)
  {
    if |events| > 0 {
      var init := events[..|events| - 1];
      var mid := Run(c, init);
      NothingAfterAwaitedBye(c, init);
      ClosingRun(c, init);
      if mid.state != Closed {
        ClosingSilent(mid, events[|events| - 1]);
      }
    }
  }

  lemma ClosingSilent(c: Client, e: Event)
    requires Closing(c)
    ensures NoNewRequest(c.udp.link, Tock(c, e).udp.link)
  {
    match e {
      case FromServer(d) =>
        var m := ServerMove(c.udp, d);
        SilentMove(c.udp.link, m);
      case Interrupt =>
        var m := UserMove(c.udp, "/exit");
        SilentMove(c.udp.link, m);
      case _ =>
    }
  }

  lemma SilentMove(l: Link, m: Move)
    requires !m.Submit?
    ensures NoNewRequest(l, Apply(l, m))
  {
  }
}
