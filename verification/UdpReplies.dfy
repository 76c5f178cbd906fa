/** What the UDP client makes of replies: which are shown, and which log it in. */
module UdpReplies {
  import opened Octets
  import opened UdpRecords
  import opened Session
  import opened Common
  import opened CommandLines
  import opened UdpMachine
  import opened UdpDelivery
  import opened UdpSession

  predicate IsConfirm(d: Datagram, id: MsgId) {
    d[0] == CONFIRM && IdOf(d) == id
  }

  /** An accepted reply is displayed exactly when it names the identifier awaited. */
  lemma ReplyShownExactly(u: Udp, d: Datagram)
    requires ReadsAsReply(d) && Step(u.fsm, ReplyAction(d)).1 == Allow
    ensures ServerStep(u, d).0.shown == u.shown + if RefOf(d) == u.awaitReply then [LineOfReply(d)] else []
  {
  }

  /** Nothing being awaited is itself an identifier: a reply to 65535 is displayed every time. */
  lemma ReplyToNobodyIsShown(u: Udp, d: Datagram)
    requires u.awaitReply == NONE && u.fsm.current == Open && u.fsm.expected == [Any]
    requires ReadsAsReply(d) && RefOf(d) == NONE
    ensures ServerStep(ServerStep(u, d).0, d).0.shown == u.shown + [LineOfReply(d), LineOfReply(d)]
  {
    ReplyShownExactly(u, d);
    ReplyShownExactly(ServerStep(u, d).0, d);
    assert ServerStep(u, d).0.awaitReply == NONE;
  }

  // ------------------------------------------------------------------- request by request

  /** Displayed replies to `ref`. */
  function RepliesTo(shown: seq<Line>, ref: MsgId): nat {
    if |shown| == 0 then 0
    else RepliesTo(shown[..|shown| - 1], ref) + if Answers(shown[|shown| - 1], ref) then 1 else 0
  }

  /** The AUTH and JOIN sent under `ref`. */
  function AsksUnder(sent: seq<Original>, ref: MsgId): nat {
    if |sent| == 0 then 0
    else
      var last := sent[|sent| - 1];
      AsksUnder(sent[..|sent| - 1], ref)
      + if last.kind in {Authorize, JoinChannel} && last.id == ref then 1 else 0
  }

  /** What is left of the requests under `ref`, 0 having one for nothing. */
  function Surplus(u: Udp, ref: MsgId): int {
    AsksUnder(u.link.sent, ref) + (if ref == 0 then 1 else 0)
    - RepliesTo(u.shown, ref) - (if u.awaitReply == ref then 1 else 0)
  }

  lemma RepliesToLast(shown: seq<Line>, more: seq<Line>, ref: MsgId)
    requires |more| == |shown| + 1 && shown <= more
    ensures RepliesTo(more, ref) == RepliesTo(shown, ref) + if Answers(more[|shown|], ref) then 1 else 0
  {
    assert more[..|shown|] == shown;
  }

  lemma AsksUnderLast(sent: seq<Original>, more: seq<Original>, ref: MsgId)
    requires |more| == |sent| + 1 && sent <= more
    ensures var o := more[|sent|];
      AsksUnder(more, ref)
      == AsksUnder(sent, ref) + if o.kind in {Authorize, JoinChannel} && o.id == ref then 1 else 0
  {
    assert more[..|sent|] == sent;
  }

  lemma MoveAsksUnder(l: Link, m: Move, ref: MsgId)
    requires m.Submit? ==> Request(m.kind)
    ensures AsksUnder(Apply(l, m).sent, ref)
      == AsksUnder(l.sent, ref) + if m.Submit? && m.kind != Chat && l.next == ref then 1 else 0
  {
    var r := Apply(l, m);
    ApplyGrows(l, m);
    if |r.sent| > |l.sent| {
      AsksUnderLast(l.sent, r.sent, ref);
    }
  }

  lemma HasSurplus(u: Udp, v: Udp, e: Effect, m: Move, ref: MsgId)
    requires Has(u, v, e) && v.link == Apply(u.link, m) && !m.Submit? && ref != NONE
    ensures Surplus(v, ref) >= Surplus(u, ref)
  {
    MoveAsksUnder(u.link, m, ref);
    if |v.shown| > |u.shown| {
      RepliesToLast(u.shown, v.shown, ref);
    }
  }

  lemma SendsSurplus(u: Udp, v: Udp, m: Move, ref: MsgId)
    requires Sends(u, v, m) && (m.Submit? ==> Request(m.kind)) && ref != NONE
    ensures Surplus(v, ref) >= Surplus(u, ref)
  {
    assert RepliesTo(v.shown, ref) == RepliesTo(u.shown, ref) by { NoticeIsNoReply(u.shown, v.shown, ref); }
    assert AsksUnder(v.link.sent, ref)
      == AsksUnder(u.link.sent, ref) + if m.Submit? && m.kind != Chat && u.link.next == ref then 1 else 0
    by { MoveAsksUnder(u.link, m, ref); }
  }

  lemma NoticeIsNoReply(shown: seq<Line>, more: seq<Line>, ref: MsgId)
    requires Notice(shown, more)
    ensures RepliesTo(more, ref) == RepliesTo(shown, ref)
  {
    if more != shown {
      RepliesToLast(shown, more, ref);
    }
  }

  lemma TockSurplus(c: Client, e: Event, ref: MsgId)
    requires ref != NONE
    ensures Surplus(Tock(c, e).udp, ref) >= Surplus(c.udp, ref)
  {
    match e {
      case FromServer(d) =>
        var x := ServerEffect(c.udp, d);
        var m := ServerMove(c.udp, d);
        HasSurplus(c.udp, ServerStep(c.udp, d).0, x, m, ref);
      case FromUser(line, _) =>
        var m := UserMove(c.udp, line);
        SendsSurplus(c.udp, UserStep(c.udp, line).0, m, ref);
      case Timeout =>
      case _ =>
        var m := UserMove(c.udp, "/exit");
        SendsSurplus(c.udp, UserStep(c.udp, "/exit").0, m, ref);
    }
  }

  /** Over every run and for each identifier but 65535: the replies displayed to it, and one more
      while it is awaited, are at most the AUTH and JOIN sent under it, and one more for 0. */
  lemma {:induction false} EachRequestAnsweredOnce(max: nat, events: seq<Event>, ref: MsgId)
    requires ref != NONE
    ensures var u := Run(Launch(max), events).udp;
      RepliesTo(u.shown, ref) + (if u.awaitReply == ref then 1 else 0)
      <= AsksUnder(u.link.sent, ref) + (if ref == 0 then 1 else 0)
  {
    if |events| > 0 {
      EachRequestAnsweredOnce(max, events[..|events| - 1], ref);
      TockSurplus(Run(Launch(max), events[..|events| - 1]), events[|events| - 1], ref);
    }
  }

  // ------------------------------------------------------------------------------- logging in

  /** A positive reply, whatever it answers, met in AUTH with no restriction armed. */
  predicate LogsIn(u: Udp, d: Datagram) {
    ReadsAsReply(d) && Positive(d) && u.fsm.current == Auth && !Restricted(u.fsm)
  }

  lemma ServerLogsIn(u: Udp, d: Datagram)
    requires u.fsm.current != Open
    ensures ServerStep(u, d).0.fsm.current == Open <==> LogsIn(u, d)
  {
    var asked := ServerAsks(u, d);
    if |asked| == 1 {
      StepOpens(u.fsm, asked[0]);
    }
  }

  lemma StepOpens(f: Fsm, a: Action)
    requires f.current != Open && GetSource(a) == Server
    ensures Step(f, a).0.current == Open <==> a == ReplyServer && f.current == Auth && !Restricted(f)
  {
  }

  lemma UserStepOpens(f: Fsm, a: Action)
    requires Held(f) && f.current != Open && UserAction(a)
    ensures Step(f, a).0.current == Open <==> f.previous == Open
  {
  }

  /** A refused line takes a session that had been in OPEN back there. */
  predicate RollsBack(c: Client, e: Event) {
    && e.FromUser? && Listening(c.state) && |e.line| > 0 && Consults(c.udp, e.line)
    && c.udp.fsm.previous == Open
  }

  lemma LineOpens(c: Client, e: Event)
    requires c.state != Closed && Held(c.udp.fsm) && c.udp.fsm.current != Open && !e.FromServer?
    ensures Tock(c, e).udp.fsm.current == Open <==> RollsBack(c, e)
  {
    match e {
      case FromUser(line, _) =>
        var asked := UserAsks(c.udp, line);
        if |asked| > 0 {
          UserStepOpens(c.udp.fsm, asked[0]);
        }
      case Timeout =>
      case _ => var asked := UserAsks(c.udp, "/exit");
    }
  }

  /** In every live client of every run, the session enters OPEN if and only if a positive reply,
      to whatever it may be, meets AUTH with no restriction armed, or a refused line rolls back a
      session that had been there before. */
  lemma LoginExactly(max: nat, before: seq<Event>, e: Event)
    requires Run(Launch(max), before).state != Closed && Run(Launch(max), before).udp.fsm.current != Open
    ensures var c := Run(Launch(max), before);
      Tock(c, e).udp.fsm.current == Open <==> (e.FromServer? && LogsIn(c.udp, e.d)) || RollsBack(c, e)
  {
    var c := Run(Launch(max), before);
    RunOrderly(max, before);
    if e.FromServer? {
      ServerLogsIn(c.udp, e.d);
    } else {
      LineOpens(c, e);
    }
  }

  /** No AUTH was sent under this identifier. */
  predicate Unasked(sent: seq<Original>, ref: MsgId) {
    forall k :: 0 <= k < |sent| && sent[k].kind == Authorize ==> sent[k].id != ref
  }

  /** Some reply to no AUTH that was ever sent logs the client in. */
  ghost predicate CanLogInUnasked(u: Udp) {
    exists d: Datagram :: ReadsAsReply(d) && Unasked(u.link.sent, RefOf(d)) && ServerStep(u, d).0.fsm.current == Open
  }

  /** Any identifier can be replied to. */
  lemma ReplyTo(ref: MsgId) returns (d: Datagram)
    ensures ReadsAsReply(d) && Positive(d) && RefOf(d) == ref
  {
    var fields := ["x"];
    assert fields[..0] == [];
    assert Terminated(fields) == "x" + [NUL];
    FieldsInvertTerminated(fields, []);
    assert Terminated(fields) + [] == Terminated(fields);
    Decode16InvertsEncode16(ref);
    d := [REPLY] + Encode16(0) + [POSITIVE] + Encode16(ref) + Terminated(fields);
    assert d[6..] == Terminated(fields);
  }

  lemma NextIsUnasked(l: Link)
    requires Numbered(l) && |l.sent| < 65536
    ensures Unasked(l.sent, l.next)
  {
    forall k | 0 <= k < |l.sent| ensures l.sent[k].id != l.next {
      assert Labelled(l.sent[k], k);
    }
  }

  /** A client not in OPEN can be logged in by a reply to no AUTH it ever sent if and only if it is
      in AUTH with no restriction armed, as long as an identifier is left that no AUTH carried, as
      there is until identifiers wrap around. */
  lemma UnaskedLoginExactly(max: nat, before: seq<Event>)
    requires Run(Launch(max), before).udp.fsm.current != Open
    ensures var u := Run(Launch(max), before).udp;
      && (CanLogInUnasked(u) <==>
            u.fsm.current == Auth && !Restricted(u.fsm) && exists ref: MsgId :: Unasked(u.link.sent, ref))
      && (|u.link.sent| < 65536 ==> Unasked(u.link.sent, u.link.next))
  {
    var u := Run(Launch(max), before).udp;
    RunKeeps(max, before);
    if |u.link.sent| < 65536 {
      NextIsUnasked(u.link);
    }
    if CanLogInUnasked(u) {
      var d: Datagram :|
        ReadsAsReply(d) && Unasked(u.link.sent, RefOf(d)) && ServerStep(u, d).0.fsm.current == Open;
      ServerLogsIn(u, d);
    }
    if u.fsm.current == Auth && !Restricted(u.fsm) {
      forall ref: MsgId | Unasked(u.link.sent, ref) ensures CanLogInUnasked(u) {
        var d := ReplyTo(ref);
        ServerLogsIn(u, d);
      }
    }
  }

  lemma TypoIsAccepted(line: Text)
    requires TypoLine(line)
    ensures var (v, r) := UserStep(BOOT, line);
      && r == ReadyForInput && v.fsm == Fsm(Auth, Start, [Any])
      && v.link == IDLE && v.awaitReply == 0
  {
  }

  /** So a malformed `/auth` is enough: it is not sent, but any positive reply then logs in. It is
      shown as well if it names 0, which is awaited from the start. */
  lemma LoginWithoutAsking(line: Text, d: Datagram)
    requires TypoLine(line) && ReadsAsReply(d) && Positive(d)
    ensures var u := ServerStep(UserStep(BOOT, line).0, d).0;
      && u.link.sent == [] && u.fsm.current == Open
      && (RefOf(d) == 0 ==> LineOfReply(d) in u.shown)
  {
    var v := UserStep(BOOT, line).0;
    TypoIsAccepted(line);
    ServerLogsIn(v, d);
    ReplyShownExactly(v, d);
    var asked := ServerAsks(v, d);
    var m := ServerMove(v, d);
  }

  // ------------------------------------------------------------------- success without a login

  /** A positive reply, awaited and let through. */
  predicate Success(u: Udp, d: Datagram) {
    ReadsAsReply(d) && Positive(d) && RefOf(d) == u.awaitReply && Step(u.fsm, ReplyServer).1 == Allow
  }

  lemma SuccessStep(u: Udp, d: Datagram)
    requires Held(u.fsm) && u.fsm.current == Auth && Success(u, d)
    ensures var v := ServerStep(u, d).0;
      && v.shown == u.shown + [LineOfReply(d)]
      && (v.fsm.current == Open <==> !Restricted(u.fsm))
      && (v.fsm.current != Open ==> v.fsm.current == Auth && v.fsm.expected == [Any])
  {
    ReplyShownExactly(u, d);
    var asked := ServerAsks(u, d);
  }

  /** At any point of any run in AUTH, such a reply is shown as a success, but it logs the client
      in if and only if no restriction is armed. */
  lemma ShownSuccessLogsInExactly(max: nat, before: seq<Event>, d: Datagram)
    requires Run(Launch(max), before).udp.fsm.current == Auth && Success(Run(Launch(max), before).udp, d)
    ensures var u := Run(Launch(max), before).udp;
      var v := ServerStep(u, d).0;
      && v.shown == u.shown + [LineOfReply(d)]
      && (v.fsm.current == Open <==> !Restricted(u.fsm))
      && (v.fsm.current != Open ==> v.fsm.current == Auth && v.fsm.expected == [Any])
  {
    RunOrderly(max, before);
    SuccessStep(Run(Launch(max), before).udp, d);
  }

  lemma AuthAfterTypo(u: Udp, line: Text)
    requires AuthorizeLine(line) && u.fsm == Fsm(Auth, Start, [Any])
    requires u.link == IDLE && u.awaitReply == 0
    ensures var (v, r) := UserStep(u, line);
      && r == WaitingForConfirmation
      && v.fsm == Fsm(Auth, Auth, [ReplyServer, NReplyServer, ErrorServer])
      && v.waitReply && v.awaitReply == 0 && v.link.waiting && v.link.awaited == 0
      && !v.link.awaitingOver && !v.link.errorSent
  {
  }

  lemma ConfirmSettles(u: Udp, d: Datagram)
    requires IsConfirm(d, u.link.awaited) && !u.link.awaitingOver && !u.link.errorSent
    ensures var (v, r) := ServerStep(u, d);
      && v.fsm == u.fsm && v.shown == u.shown && v.received == u.received && v.awaitReply == u.awaitReply
      && v.link.sent == u.link.sent && v.link.next == u.link.next && !v.link.waiting
      && !v.link.awaitingOver && !v.link.errorSent && v.link.errorPending == u.link.errorPending
      && r == if u.waitReply then WaitingForReply else ReadyForInput
  {
  }

  /** The first AUTH waits for its CONFIRM with the list armed. */
  predicate ArmedAtFirst(c: Client) {
    && c.state == WaitingForConfirmation && c.udp.waitReply && c.udp.awaitReply == 0
    && c.udp.fsm == Fsm(Auth, Auth, [ReplyServer, NReplyServer, ErrorServer])
    && c.udp.link.awaited == 0 && !c.udp.link.awaitingOver && !c.udp.link.errorSent
  }

  /** Where the client stands after `/auth` was mistyped and then typed right. */
  lemma TypoThenAuth(max: nat, typo: Text, auth: Text, s: ClientState) returns (c: Client)
    requires TypoLine(typo) && AuthorizeLine(auth)
    ensures c == Run(Launch(max), [FromUser(typo, s), FromUser(auth, s)])
    ensures ArmedAtFirst(c)
  {
    var c0 := Launch(max);
    assert |typo| > 0 && |auth| > 0;
    TypoIsAccepted(typo);
    LineIsTaken(c0, typo, s);
    var c1 := Tock(c0, FromUser(typo, s));
    AuthAfterTypo(c1.udp, auth);
    LineIsTaken(c1, auth, s);
    c := Tock(c1, FromUser(auth, s));
    RunOfTwo(c0, FromUser(typo, s), FromUser(auth, s));
  }

  lemma ConfirmThenSuccess(c: Client, confirm: Datagram, ok: Datagram) returns (d: Client)
    requires ArmedAtFirst(c) && IsConfirm(confirm, 0)
    requires ReadsAsReply(ok) && Positive(ok) && RefOf(ok) == 0
    ensures d == Run(c, [FromServer(confirm), FromServer(ok)])
    ensures LineOfReply(ok) in d.udp.shown && d.udp.fsm.current == Auth
  {
    ConfirmSettles(c.udp, confirm);
    DatagramIsTaken(c, confirm);
    var settled := Tock(c, FromServer(confirm));
    SuccessStep(settled.udp, ok);
    DatagramIsTaken(settled, ok);
    d := Tock(settled, FromServer(ok));
    RunOfTwo(c, FromServer(confirm), FromServer(ok));
  }

  /** The list is armed by an AUTH accepted in AUTH, so one slip is enough: `/auth` mistyped, then
      typed right and answered with success, is shown as a success and leaves the client in AUTH. */
  lemma TypoSpoilsLogin(max: nat, typo: Text, auth: Text, s: ClientState, confirm: Datagram, ok: Datagram)
      returns (events: seq<Event>)
    requires TypoLine(typo) && AuthorizeLine(auth)
    requires IsConfirm(confirm, 0) && ReadsAsReply(ok) && Positive(ok) && RefOf(ok) == 0
    ensures events == [FromUser(typo, s), FromUser(auth, s), FromServer(confirm), FromServer(ok)]
    ensures var u := Run(Launch(max), events).udp; LineOfReply(ok) in u.shown && u.fsm.current == Auth
  {
    var asked := TypoThenAuth(max, typo, auth, s);
    var told := ConfirmThenSuccess(asked, confirm, ok);
    events := [FromUser(typo, s), FromUser(auth, s)] + [FromServer(confirm), FromServer(ok)];
    RunInTwo(Launch(max), [FromUser(typo, s), FromUser(auth, s)], [FromServer(confirm), FromServer(ok)]);
  }
}
