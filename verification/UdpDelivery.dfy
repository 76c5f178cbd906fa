/** Stop-and-wait over every run: what the handler's flags and the loop's state say about the
    originals sent, the confirmations heard and the retransmissions made. */
module UdpDelivery {
  import opened Octets
  import opened UdpRecords
  import opened Session
  import opened Common
  import opened CommandLines
  import opened UdpMachine
  import Grammar

  predicate Request(kind: Kind) {
    kind in {Authorize, JoinChannel, Chat}
  }

  // ------------------------------------------------------------- one step moves the link once

  /** The operations on the link; every event performs at most one. */
  datatype Move = Keep | Grumble(name: Text, text: Text) | Bye(hold: bool) | Heard(id: MsgId)
                | Submit(kind: Kind, fields: seq<Text>) | Repeat

  function Apply(l: Link, m: Move): Link {
    match m
    case Keep => l
    case Grumble(name, text) => Complain(l, name, text)
    case Bye(hold) => Leave(l).(waiting := hold || l.waiting)
    case Heard(id) => Hear(l, id).0
    case Submit(kind, fields) => Ask(l, kind, fields)
    case Repeat => Resend(l)
  }

  predicate Parts(l: Link, m: Move) {
    m.Heard? && Hear(l, m.id).1 == Parting
  }

  /** A move that at most complains. */
  predicate Mild(m: Move) {
    m.Keep? || m.Grumble?
  }

  lemma ReplyMove(u: Udp, d: Datagram) returns (m: Move)
    ensures Mild(m) && OnReplyRecord(u, d).0.link == Apply(u.link, m)
  {
    m := Keep;
    if |d| < 6 {
      m := Grumble(u.name, SHORT_REPLY);
    } else if !Readable(OnReply, d[6..]) {
      m := Grumble(u.name, BAD_REPLY_CONTENT);
    } else if d[3] == NEGATIVE {
      if Step(u.fsm, NReplyServer).1 == Fail {
        m := Grumble(u.name, BAD_NREPLY_STATE);
      }
    } else if d[3] == POSITIVE {
      if Step(u.fsm, ReplyServer).1 == Fail {
        m := Grumble(u.name, BAD_REPLY_STATE);
      }
    } else {
      m := Grumble(u.name, BAD_REPLY_STATUS);
    }
  }

  lemma MsgMove(u: Udp, d: Datagram) returns (m: Move)
    ensures Mild(m) && OnMsgRecord(u, d).0.link == Apply(u.link, m)
  {
    m := Keep;
    if |d| < 3 {
      m := Grumble(u.name, SHORT_MSG);
    } else if !Readable(OnMsg, d[3..]) {
      m := Grumble(u.name, BAD_MSG_CONTENT);
    } else if Step(u.fsm, MessageServer).1 != Allow {
      m := Grumble(u.name, BAD_MSG_STATE);
    }
  }

  /** A server error the session lets through. */
  predicate AcceptedErr(u: Udp, d: Datagram) {
    d[0] == ERR && |d| >= 4 && Readable(OnErr, d[3..]) && Step(u.fsm, ErrorServer).1 == Allow
  }

  lemma ErrMove(u: Udp, d: Datagram) returns (m: Move)
    requires d[0] == ERR
    ensures Mild(m) || m.Bye?
    ensures m.Bye? ==> AcceptedErr(u, d)
    ensures OnErrRecord(u, d).0.link == Apply(u.link, m)
  {
    if |d| < 4 {
      m := Grumble(u.name, SHORT_ERR);
    } else if !Readable(OnErr, d[3..]) {
      m := Grumble(u.name, BAD_ERR_CONTENT);
    } else if Step(u.fsm, ErrorServer).1 != Allow {
      m := Grumble(u.name, BAD_ERR_STATE);
    } else {
      m := Bye(IdOf(d) in u.received);
    }
  }

  lemma ServerMove(u: Udp, d: Datagram) returns (m: Move)
    ensures Mild(m) || (m.Bye? && AcceptedErr(u, d)) || (d[0] == CONFIRM && m == Heard(IdOf(d)))
    ensures var (v, r) := ServerStep(u, d);
      && v.link == Apply(u.link, m)
      && (v.link.waiting ==> r == WaitingForConfirmation)
      && (Parts(u.link, m) ==> r == Closed)
  {
    if d[0] == CONFIRM {
      m := Heard(IdOf(d));
    } else if d[0] == REPLY {
      m := ReplyMove(u, d);
    } else if d[0] == MSG {
      m := MsgMove(u, d);
    } else if d[0] == ERR {
      m := ErrMove(u, d);
    } else if d[0] == BYE && |d| >= 3 {
      m := Keep;
    } else {
      m := Grumble(u.name, if d[0] == BYE then SHORT_BYE else BAD_FORMAT);
    }
  }

  /** At most a notice is shown. */
  predicate Notice(shown: seq<Line>, more: seq<Line>) {
    || more == shown
    || (|more| == |shown| + 1 && shown <= more && (more[|shown|].Internal? || more[|shown|].Help?))
  }

  /** A line from the user moves the link by `m`, shows no more than a notice, confirms nothing,
      and when something is sent that decides which reply is awaited. */
  predicate Sends(u: Udp, v: Udp, m: Move) {
    && v.link == Apply(u.link, m)
    && v.received == u.received && v.receipts == u.receipts && Notice(u.shown, v.shown)
    && v.awaitReply == (if m.Submit? then (if m.kind == Chat then NONE else u.link.next) else u.awaitReply)
  }

  /** Nothing is sent, or a request is, and then the session had let it through. */
  predicate Tries(u: Udp, m: Move, kind: Kind) {
    m.Keep? || (m.Submit? && m.kind == kind && Step(u.fsm, ActionOf(kind)).1 == Allow)
  }

  lemma AuthMove(u: Udp, argument: Text) returns (m: Move)
    ensures Sends(u, OnAuth(u, argument).0, m) && Tries(u, m, Authorize)
    ensures m.Submit? ==> OnAuth(u, argument).1 == WaitingForConfirmation
  {
    var parts := Split(argument, SP);
    m := Keep;
    if Step(u.fsm, AuthorizeUser).1 == Allow && ValidCredentials(parts) {
      m := Submit(Authorize, [parts[0], parts[2], parts[1]]);
    }
  }

  lemma JoinMove(u: Udp, argument: Text) returns (m: Move)
    ensures Sends(u, OnJoin(u, argument).0, m) && Tries(u, m, JoinChannel)
    ensures m.Submit? ==> OnJoin(u, argument).1 == WaitingForConfirmation
  {
    var parts := Split(argument, SP);
    m := Keep;
    if Step(u.fsm, JoinUser).1 == Allow && |parts| == 1 && Grammar.ValidId(parts[0]) {
      m := Submit(JoinChannel, [parts[0], u.name]);
    }
  }

  lemma TextMove(u: Udp, line: Text) returns (m: Move)
    ensures Sends(u, OnText(u, line).0, m) && Tries(u, m, Chat)
    ensures m.Submit? ==> OnText(u, line).1 == WaitingForConfirmation
  {
    m := Keep;
    if !(|line| > 0 && line[0] == '/') {
      if Step(u.fsm, MessageUser).1 == Allow && Grammar.ValidContent(line) {
        m := Submit(Chat, [u.name, line]);
      }
    }
  }

  lemma UserMove(u: Udp, line: Text) returns (m: Move)
    ensures Sends(u, UserStep(u, line).0, m)
    ensures Mild(m) || m == Bye(true) || (m.Submit? && Request(m.kind) && Tries(u, m, m.kind))
    ensures m.Submit? ==> !u.link.errorPending
    ensures m.Keep? || UserStep(u, line).1 == WaitingForConfirmation
    ensures line == "/exit" ==> m == Bye(true)
  {
    var command, argument := ToUpper(Command(line)), Argument(line);
    m := Keep;
    if line == "/exit" {
      m := Bye(true);
    } else if u.link.errorPending {
      m := Grumble(u.name, u.link.errorText);
    } else if command == "/AUTH" {
      m := AuthMove(u, argument);
    } else if command == "/JOIN" {
      m := JoinMove(u, argument);
    } else if command != "/RENAME" && command != "/HELP" {
      m := TextMove(u, line);
    }
  }

  /** The histories only grow, and by at most one original. */
  predicate Grows(l: Link, r: Link) {
    l.sent <= r.sent && |r.sent| <= |l.sent| + 1 && l.ticks <= r.ticks
  }

  /** One more original than before, of this kind. */
  predicate Originates(l: Link, r: Link, kind: Kind) {
    |r.sent| == |l.sent| + 1 && l.sent <= r.sent && r.sent[|l.sent|].kind == kind
  }

  lemma HeardGrows(l: Link, id: MsgId)
    ensures var r := Hear(l, id).0;
      && Grows(l, r)
      && (|r.sent| > |l.sent| <==> Hear(l, id).1 == Apologized)
      && (|r.sent| > |l.sent| ==> r.sent[|l.sent|].kind == Farewell)
  {
  }

  lemma ApplyGrows(l: Link, m: Move)
    ensures var r := Apply(l, m);
      && Grows(l, r)
      && (|r.sent| > |l.sent| ==>
            r.sent[|l.sent|].kind in {Farewell, Failure} || (m.Submit? && r.sent[|l.sent|].kind == m.kind))
  {
    if m.Heard? {
      HeardGrows(l, m.id);
    }
  }

  // ------------------------------------------------------------------- identifiers in order

  /** The k-th original carries k modulo 2^16, and its octets say so. */
  predicate Labelled(o: Original, k: nat) {
    && o.id == k % 65536
    && |o.data| >= 3 && o.data[0] == Code(o.kind) && IdOf(o.data) == o.id
  }

  function Latest(sent: seq<Original>): Text {
    if |sent| == 0 then [] else sent[|sent| - 1].data
  }

  ghost predicate Numbered(l: Link) {
    && l.next == |l.sent| % 65536
    && (forall k :: 0 <= k < |l.sent| ==> Labelled(l.sent[k], k))
    && l.last == Latest(l.sent)
    && (l.waiting ==> |l.sent| > 0 && l.awaited == l.sent[|l.sent| - 1].id)
    && Stamped(l)
  }

  /** Every retransmission repeats the original that was the latest at the time. */
  ghost predicate Stamped(l: Link) {
    && (forall k :: 0 <= k < |l.ticks| ==> l.ticks[k].after <= |l.sent|)
    && (forall k :: 0 <= k < |l.ticks| && l.ticks[k].Again? ==>
          l.ticks[k].data == Latest(l.sent[..l.ticks[k].after]))
  }

  lemma StampedOriginate(l: Link, r: Link, o: Original)
    requires Stamped(l) && r.ticks == l.ticks && r.sent == l.sent + [o]
    ensures Stamped(r)
  {
    forall k | 0 <= k < |l.ticks| && l.ticks[k].Again?
      ensures l.ticks[k].data == Latest(r.sent[..l.ticks[k].after])
    {
      assert r.sent[..l.ticks[k].after] == l.sent[..l.ticks[k].after];
    }
  }

  lemma RecordLabelled(kind: Kind, k: nat, fields: seq<Text>)
    ensures Labelled(Original(kind, k % 65536, Record(Code(kind), k % 65536, fields)), k)
  {
    HeaderRoundTrip(Code(kind), k % 65536, fields);
  }

  lemma NumberedOriginate(l: Link, r: Link, kind: Kind, data: Text)
    requires Numbered(l) && Labelled(Original(kind, l.next, data), |l.sent|)
    requires r.sent == l.sent + [Original(kind, l.next, data)] && r.ticks == l.ticks
    requires r.last == data && r.awaited == l.next && r.next == Succ(l.next)
    ensures Numbered(r)
  {
    StampedOriginate(l, r, Original(kind, l.next, data));
    forall k | 0 <= k < |r.sent| ensures Labelled(r.sent[k], k) {
      if k < |l.sent| {
        assert r.sent[k] == l.sent[k];
      }
    }
  }

  lemma NumberedTick(l: Link, t: Tick)
    requires Numbered(l)
    requires t.after == |l.sent| && (t.Again? ==> t.data == l.last)
    ensures Numbered(l.(ticks := l.ticks + [t]))
  {
    assert l.sent[..|l.sent|] == l.sent;
  }

  lemma HeardNumbered(l: Link, id: MsgId)
    requires Numbered(l) && (l.errorSent ==> l.waiting)
    ensures Numbered(Hear(l, id).0)
  {
    var heard := l.(ticks := l.ticks + [Confirmed(|l.sent|, id)]);
    NumberedTick(l, Confirmed(|l.sent|, id));
    if id == l.awaited && !l.awaitingOver && l.errorSent {
      RecordLabelled(Farewell, |l.sent|, []);
      NumberedOriginate(heard, Hear(l, id).0, Farewell, Record(BYE, l.next, []));
    }
  }

  lemma ApplyNumbered(l: Link, m: Move)
    requires Numbered(l) && (l.errorSent ==> l.waiting)
    ensures Numbered(Apply(l, m))
  {
    var r := Apply(l, m);
    match m {
      case Keep =>
      case Grumble(name, text) =>
        if !l.waiting {
          RecordLabelled(Failure, |l.sent|, [name, text]);
          NumberedOriginate(l, r, Failure, Record(ERR, l.next, [name, text]));
        }
      case Bye(_) =>
        RecordLabelled(Farewell, |l.sent|, []);
        NumberedOriginate(l, r, Farewell, Record(BYE, l.next, []));
      case Heard(id) => HeardNumbered(l, id);
      case Submit(kind, fields) =>
        RecordLabelled(kind, |l.sent|, fields);
        NumberedOriginate(l, r, kind, Record(Code(kind), l.next, fields));
      case Repeat => NumberedTick(l, Again(|l.sent|, l.last));
    }
  }

  // --------------------------------------------------------------------- confirmed in time

  /** A CONFIRM carrying the identifier of the k-th original arrived after that original was
      sent and before the next one was. */
  predicate Answered(l: Link, k: nat)
    requires k < |l.sent|
  {
    Confirmed(k + 1, l.sent[k].id) in l.ticks
  }

  /** Every original but a BYE among the first `n`. */
  predicate AllAnswered(l: Link, n: nat)
    requires n <= |l.sent|
  {
    forall k :: 0 <= k < n && l.sent[k].kind != Farewell ==> Answered(l, k)
  }

  /** The history of a link: no AUTH, JOIN or MSG left before everything earlier was answered,
      and nothing but BYE follows an ERR. */
  predicate Paced(l: Link) {
    && (forall n :: 0 <= n < |l.sent| && Request(l.sent[n].kind) ==> AllAnswered(l, n))
    && (forall i, j :: 0 <= i < j < |l.sent| && l.sent[i].kind == Failure ==> l.sent[j].kind == Farewell)
  }

  predicate Complained(l: Link) {
    exists k :: 0 <= k < |l.sent| && l.sent[k].kind == Failure
  }

  /** What the flags promise as long as the client has not parted. */
  predicate Flowing(l: Link) {
    && (l.errorSent ==> l.waiting)
    && (Complained(l) ==> l.waiting && (l.errorSent || l.awaitingOver))
    && (!l.waiting ==> AllAnswered(l, |l.sent|))
    && (l.waiting ==> |l.sent| > 0)
    && (l.waiting && !l.awaitingOver ==> AllAnswered(l, |l.sent| - 1))
  }

  lemma AnsweredStays(l: Link, r: Link, n: nat)
    requires n <= |l.sent| && l.sent <= r.sent && l.ticks <= r.ticks
    requires AllAnswered(l, n)
    ensures AllAnswered(r, n)
  {
  }

  lemma PacedOriginate(l: Link, o: Original)
    requires Paced(l)
    requires Request(o.kind) ==> AllAnswered(l, |l.sent|)
    requires o.kind != Farewell ==> !Complained(l)
    ensures Paced(l.(sent := l.sent + [o]))
  {
    var r := l.(sent := l.sent + [o]);
    forall n | 0 <= n < |r.sent| && Request(r.sent[n].kind) ensures AllAnswered(r, n) {
      assert AllAnswered(l, n);
      AnsweredStays(l, r, n);
    }
  }

  lemma PacedTick(l: Link, t: Tick)
    requires Paced(l)
    ensures Paced(l.(ticks := l.ticks + [t]))
  {
    var r := l.(ticks := l.ticks + [t]);
    forall n | 0 <= n < |r.sent| && Request(r.sent[n].kind) ensures AllAnswered(r, n) {
      AnsweredStays(l, r, n);
    }
  }

  predicate Legal(l: Link, m: Move) {
    m.Submit? ==> Request(m.kind) && !l.waiting
  }

  lemma HeardPaced(l: Link, id: MsgId)
    requires Paced(l)
    ensures Paced(Hear(l, id).0)
  {
    var t := Confirmed(|l.sent|, id);
    PacedTick(l, t);
    PacedOriginate(l.(ticks := l.ticks + [t]), Original(Farewell, l.next, Record(BYE, l.next, [])));
    assert Hear(l, id).0.sent in {l.sent, l.sent + [Original(Farewell, l.next, Record(BYE, l.next, []))]};
  }

  lemma ApplyPaced(l: Link, m: Move)
    requires Paced(l) && Flowing(l) && Legal(l, m)
    ensures Paced(Apply(l, m))
  {
    match m {
      case Keep =>
      case Grumble(name, text) =>
        if !l.waiting {
          PacedOriginate(l, Original(Failure, l.next, Record(ERR, l.next, [name, text])));
        }
      case Bye(_) => PacedOriginate(l, Original(Farewell, l.next, Record(BYE, l.next, [])));
      case Heard(id) => HeardPaced(l, id);
      case Submit(kind, fields) =>
        PacedOriginate(l, Original(kind, l.next, Record(Code(kind), l.next, fields)));
      case Repeat => PacedTick(l, Again(|l.sent|, l.last));
    }
  }

  lemma ComplainedGrows(l: Link, o: Original)
    ensures Complained(l.(sent := l.sent + [o])) <==> Complained(l) || o.kind == Failure
  {
    var r := l.(sent := l.sent + [o]);
    assert r.sent[|l.sent|] == o;
    if Complained(l) {
      var k :| 0 <= k < |l.sent| && l.sent[k].kind == Failure;
      assert r.sent[k] == l.sent[k];
    }
  }

  /** Sending with the wait on, or a BYE without it. */
  lemma FlowingOriginate(l: Link, o: Original, r: Link)
    requires Flowing(l)
    requires r.sent == l.sent + [o] && r.ticks == l.ticks
    requires o.kind != Farewell ==> !l.waiting && r.waiting
    requires r.errorSent == (l.errorSent || o.kind == Failure)
    requires r.awaitingOver == (l.awaitingOver || o.kind == Farewell)
    requires l.waiting ==> r.waiting
    ensures Flowing(r)
  {
    ComplainedGrows(l, o);
    assert Complained(r) <==> Complained(l.(sent := l.sent + [o]));
    if !l.waiting {
      AnsweredStays(l, r, |l.sent|);
    }
  }

  lemma FlowingTick(l: Link, t: Tick)
    requires Flowing(l)
    ensures Flowing(l.(ticks := l.ticks + [t]))
  {
    var r := l.(ticks := l.ticks + [t]);
    assert Complained(r) <==> Complained(l);
    if !l.waiting {
      AnsweredStays(l, r, |l.sent|);
    } else if !l.awaitingOver {
      AnsweredStays(l, r, |l.sent| - 1);
    }
  }

  /** A matching CONFIRM answers the latest original, if that was being waited for. */
  lemma HeardAnswers(l: Link, id: MsgId)
    requires Numbered(l) && Flowing(l) && id == l.awaited && !l.awaitingOver
    ensures AllAnswered(l.(ticks := l.ticks + [Confirmed(|l.sent|, id)]), |l.sent|)
  {
    var t := Confirmed(|l.sent|, id);
    var r := l.(ticks := l.ticks + [t]);
    assert r.ticks[|l.ticks|] == t;
    if l.waiting {
      AnsweredStays(l, r, |l.sent| - 1);
      assert Answered(r, |l.sent| - 1);
    } else {
      AnsweredStays(l, r, |l.sent|);
    }
  }

  lemma HeardFlowing(l: Link, id: MsgId)
    requires Numbered(l) && Flowing(l) && Hear(l, id).1 != Parting
    ensures Flowing(Hear(l, id).0)
  {
    var t := Confirmed(|l.sent|, id);
    var heard := l.(ticks := l.ticks + [t]);
    FlowingTick(l, t);
    if id == l.awaited {
      HeardAnswers(l, id);
      if l.errorSent {
        var r := Hear(l, id).0;
        assert r.sent[|l.sent|].kind == Farewell;
        assert r.waiting && r.awaitingOver;
      } else {
        assert !Complained(l);
        assert !Complained(heard);
      }
    }
  }

  lemma ApplyFlowing(l: Link, m: Move)
    requires Numbered(l) && Flowing(l) && Legal(l, m) && !Parts(l, m)
    ensures Flowing(Apply(l, m))
  {
    var r := Apply(l, m);
    match m {
      case Keep =>
      case Grumble(name, text) =>
        if l.waiting {
          assert Complained(r) <==> Complained(l);
          assert Flowing(r) by { FlowingQuiet(l, r); }
        } else {
          FlowingOriginate(l, Original(Failure, l.next, Record(ERR, l.next, [name, text])), r);
        }
      case Bye(_) => FlowingOriginate(l, Original(Farewell, l.next, Record(BYE, l.next, [])), r);
      case Heard(id) => HeardFlowing(l, id);
      case Submit(kind, fields) =>
        FlowingOriginate(l, Original(kind, l.next, Record(Code(kind), l.next, fields)), r);
      case Repeat => FlowingTick(l, Again(|l.sent|, l.last));
    }
  }

  lemma FlowingQuiet(l: Link, r: Link)
    requires Flowing(l)
    requires r == l.(errorText := r.errorText, errorPending := r.errorPending)
    ensures Flowing(r)
  {
    assert Complained(r) <==> Complained(l);
    if !l.waiting {
      AnsweredStays(l, r, |l.sent|);
    } else if !l.awaitingOver {
      AnsweredStays(l, r, |l.sent| - 1);
    }
  }

  // ----------------------------------------------------------------- the retransmission budget

  /** Retransmissions made while exactly `n` originals had been sent: those of the n-th. */
  function Resends(ticks: seq<Tick>, n: nat): nat {
    if |ticks| == 0 then 0
    else
      var t := ticks[|ticks| - 1];
      Resends(ticks[..|ticks| - 1], n) + if t.Again? && t.after == n then 1 else 0
  }

  lemma ResendsGrow(ticks: seq<Tick>, t: Tick, n: nat)
    ensures Resends(ticks + [t], n) == Resends(ticks, n) + if t.Again? && t.after == n then 1 else 0
  {
    assert (ticks + [t])[..|ticks|] == ticks;
  }

  lemma {:induction false} NoResendsYet(ticks: seq<Tick>, n: nat)
    requires forall k :: 0 <= k < |ticks| ==> ticks[k].after < n
    ensures Resends(ticks, n) == 0
  {
    if |ticks| > 0 {
      NoResendsYet(ticks[..|ticks| - 1], n);
    }
  }

  /** An AUTH, JOIN or MSG not answered in time was retransmitted at most `max` times. */
  predicate Bounded(l: Link, max: nat) {
    forall k :: 0 <= k < |l.sent| && Request(l.sent[k].kind) && !Answered(l, k) ==>
      Resends(l.ticks, k + 1) <= max
  }

  predicate Pending(l: Link) {
    l.waiting && |l.sent| > 0 && Request(l.sent[|l.sent| - 1].kind)
  }

  /** The loop's side of the agreement. */
  predicate Budgeted(c: Client) {
    var l := c.udp.link;
    && c.retry <= c.max
    && (c.state !in {WaitingForConfirmation, Closed} ==> c.retry == c.max)
    && (l.waiting ==> c.state in {WaitingForConfirmation, Closed})
    && (Pending(l) && c.state != Closed ==> Resends(l.ticks, |l.sent|) + c.retry == c.max)
  }

  ghost predicate Inv(c: Client) {
    var l := c.udp.link;
    && Numbered(l) && Paced(l) && Bounded(l, c.max)
    && (c.state != Closed ==> Flowing(l) && Budgeted(c))
  }

  // ------------------------------------------------------------------- every event keeps it

  lemma BoundedOriginate(l: Link, r: Link, o: Original, max: nat)
    requires Bounded(l, max) && Stamped(l)
    requires r.sent == l.sent + [o] && r.ticks == l.ticks
    ensures Bounded(r, max) && Resends(r.ticks, |r.sent|) == 0
  {
    NoResendsYet(l.ticks, |l.sent| + 1);
    forall k | 0 <= k < |r.sent| && Request(r.sent[k].kind) && !Answered(r, k)
      ensures Resends(r.ticks, k + 1) <= max
    {
      if k < |l.sent| {
        assert r.sent[k] == l.sent[k];
        assert !Answered(l, k);
      }
    }
  }

  lemma BoundedConfirm(l: Link, r: Link, id: MsgId, max: nat)
    requires Bounded(l, max)
    requires r.sent == l.sent && r.ticks == l.ticks + [Confirmed(|l.sent|, id)]
    ensures Bounded(r, max) && Resends(r.ticks, |l.sent|) == Resends(l.ticks, |l.sent|)
  {
    ResendsGrow(l.ticks, Confirmed(|l.sent|, id), |l.sent|);
    forall k | 0 <= k < |r.sent| && Request(r.sent[k].kind) && !Answered(r, k)
      ensures Resends(r.ticks, k + 1) <= max
    {
      assert !Answered(l, k);
      ResendsGrow(l.ticks, Confirmed(|l.sent|, id), k + 1);
    }
  }

  lemma BoundedRepeat(c: Client)
    requires Inv(c) && c.state != Closed && c.retry > 0
    ensures var r := Resend(c.udp.link);
      && Bounded(r, c.max)
      && Resends(r.ticks, |r.sent|) == Resends(c.udp.link.ticks, |r.sent|) + 1
  {
    var l := c.udp.link;
    var t := Again(|l.sent|, l.last);
    var r := Resend(l);
    ResendsGrow(l.ticks, t, |l.sent|);
    assert l.waiting || AllAnswered(l, |l.sent|);
    forall k | 0 <= k < |r.sent| && Request(r.sent[k].kind) && !Answered(r, k)
      ensures Resends(r.ticks, k + 1) <= c.max
    {
      ResendsGrow(l.ticks, t, k + 1);
      assert !Answered(l, k);
    }
  }

  /** How the count of the latest original's retransmissions moves, for every move but Repeat. */
  lemma ApplyBounded(l: Link, m: Move, max: nat)
    requires Bounded(l, max) && Stamped(l) && !m.Repeat?
    ensures var r := Apply(l, m);
      && Bounded(r, max)
      && (r.sent == l.sent ==> Resends(r.ticks, |r.sent|) == Resends(l.ticks, |l.sent|))
      && (r.sent != l.sent ==> Resends(r.ticks, |r.sent|) == 0)
  {
    var r := Apply(l, m);
    match m {
      case Keep =>
      case Grumble(name, text) =>
        if !l.waiting {
          BoundedOriginate(l, r, Original(Failure, l.next, Record(ERR, l.next, [name, text])), max);
        }
      case Bye(_) => BoundedOriginate(l, r, Original(Farewell, l.next, Record(BYE, l.next, [])), max);
      case Heard(id) => HeardBounded(l, id, max);
      case Submit(kind, fields) =>
        BoundedOriginate(l, r, Original(kind, l.next, Record(Code(kind), l.next, fields)), max);
    }
  }

  lemma HeardBounded(l: Link, id: MsgId, max: nat)
    requires Bounded(l, max) && Stamped(l)
    ensures var r := Hear(l, id).0;
      && Bounded(r, max)
      && (r.sent == l.sent ==> Resends(r.ticks, |r.sent|) == Resends(l.ticks, |l.sent|))
      && (r.sent != l.sent ==> Resends(r.ticks, |r.sent|) == 0)
  {
    var r := Hear(l, id).0;
    var heard := l.(ticks := l.ticks + [Confirmed(|l.sent|, id)]);
    BoundedConfirm(l, heard, id, max);
    if r.sent != l.sent {
      assert Stamped(heard);
      BoundedOriginate(heard, r, Original(Farewell, l.next, Record(BYE, l.next, [])), max);
    } else {
      BoundedConfirm(l, r, id, max);
    }
  }

  /** What a move does to the pending request, if there is one afterwards. */
  lemma ApplyPending(l: Link, m: Move)
    requires Pending(Apply(l, m)) && !m.Submit?
    ensures Pending(l) && Apply(l, m).sent == l.sent
  {
  }

  lemma ServerKeeps(c: Client, d: Datagram)
    requires Inv(c) && c.state != Closed
    ensures Inv(Tock(c, FromServer(d)))
  {
    var l := c.udp.link;
    var m := ServerMove(c.udp, d);
    var after := Tock(c, FromServer(d));
    ApplyNumbered(l, m);
    ApplyPaced(l, m);
    ApplyBounded(l, m, c.max);
    if after.state != Closed {
      ApplyFlowing(l, m);
      if Pending(Apply(l, m)) {
        ApplyPending(l, m);
      }
    }
  }

  lemma UserKeeps(c: Client, line: Text, stray: ClientState)
    requires Inv(c) && Listening(c.state)
    ensures var (u, r) := UserStep(c.udp, line);
      Inv(c.(udp := u, state := Settle(r, stray)))
  {
    var l := c.udp.link;
    var m := UserMove(c.udp, line);
    ApplyNumbered(l, m);
    ApplyPaced(l, m);
    ApplyBounded(l, m, c.max);
    ApplyFlowing(l, m);
    if Pending(Apply(l, m)) && !m.Submit? {
      ApplyPending(l, m);
    }
  }

  lemma ExitKeeps(c: Client, armed: bool)
    requires Inv(c) && c.state != Closed
    ensures var (u, r) := UserStep(c.udp, "/exit");
      Inv(c.(udp := u, state := r, armed := armed))
  {
    var l := c.udp.link;
    var m := UserMove(c.udp, "/exit");
    ApplyNumbered(l, m);
    ApplyPaced(l, m);
    ApplyBounded(l, m, c.max);
    ApplyFlowing(l, m);
  }

  lemma RepeatKeeps(c: Client)
    requires Inv(c) && c.state == WaitingForConfirmation && c.retry > 0
    ensures Inv(c.(udp := c.udp.(link := Resend(c.udp.link)), retry := c.retry - 1))
  {
    var l := c.udp.link;
    var r := Resend(l);
    assert r == Apply(l, Repeat);
    assert Numbered(r) by { ApplyNumbered(l, Repeat); }
    assert Paced(r) by { ApplyPaced(l, Repeat); }
    assert Flowing(r) by { ApplyFlowing(l, Repeat); }
    BoundedRepeat(c);
  }

  lemma TimeoutKeeps(c: Client)
    requires Inv(c) && c.state == WaitingForConfirmation
    ensures Inv(Tock(c, Timeout))
  {
    if c.retry > 0 {
      RepeatKeeps(c);
    }
  }

  lemma TockKeeps(c: Client, e: Event)
    requires Inv(c)
    ensures Inv(Tock(c, e))
  {
    if c.state != Closed {
      match e {
        case Interrupt => ExitKeeps(c, false);
        case Timeout =>
          if c.state == WaitingForConfirmation {
            TimeoutKeeps(c);
          }
        case FromServer(d) => ServerKeeps(c, d);
        case FromUser(line, stray) =>
          if Listening(c.state) {
            UserKeeps(c, line, stray);
          }
        case EndOfInput => ExitKeeps(c, c.armed);
      }
    }
  }

  lemma {:induction false} RunInTwo(c: Client, a: seq<Event>, b: seq<Event>)
    ensures Run(c, a + b) == Run(Run(c, a), b)
  {
    if |b| == 0 {
      assert a + b == a;
    } else {
      RunInTwo(c, a, b[..|b| - 1]);
      assert (a + b)[..|a + b| - 1] == a + b[..|b| - 1];
    }
  }

  lemma RunLast(c: Client, events: seq<Event>, e: Event)
    ensures Run(c, events + [e]) == Tock(Run(c, events), e)
  {
    assert (events + [e])[..|events|] == events;
  }

  lemma RunOfTwo(c: Client, a: Event, b: Event)
    ensures Run(c, [a]) == Tock(c, a) && Run(c, [a, b]) == Tock(Tock(c, a), b)
  {
    RunLast(c, [], a);
    RunLast(c, [a], b);
    assert [] + [a] == [a] && [a] + [b] == [a, b];
  }

  lemma RunOfThree(c: Client, a: Event, b: Event, d: Event)
    ensures Run(c, [a, b, d]) == Tock(Tock(Tock(c, a), b), d)
  {
    RunOfTwo(c, a, b);
    RunLast(c, [a, b], d);
    assert [a, b] + [d] == [a, b, d];
  }

  /** The one move of an event, as the loop performs it. */
  lemma TockMove(c: Client, e: Event) returns (m: Move)
    requires Inv(c)
    ensures Tock(c, e).udp.link == Apply(c.udp.link, m) && Legal(c.udp.link, m)
    ensures m.Heard? ==> e.FromServer? && e.d[0] == CONFIRM && m.id == IdOf(e.d)
  {
    m := Keep;
    if c.state != Closed {
      match e {
        case FromServer(d) => m := ServerMove(c.udp, d);
        case FromUser(line, _) =>
          if Listening(c.state) && |line| > 0 {
            m := UserMove(c.udp, line);
          }
        case Interrupt =>
          if c.armed {
            m := UserMove(c.udp, "/exit");
          }
        case EndOfInput =>
          if Listening(c.state) {
            m := UserMove(c.udp, "/exit");
          }
        case Timeout =>
          if c.state == WaitingForConfirmation && c.retry > 0 {
            m := Repeat;
          }
      }
    }
  }

  lemma {:induction false} RunKeeps(max: nat, events: seq<Event>)
    ensures Inv(Run(Launch(max), events)) && Run(Launch(max), events).max == max
  {
    if |events| > 0 {
      var init := events[..|events| - 1];
      RunKeeps(max, init);
      TockKeeps(Run(Launch(max), init), events[|events| - 1]);
    }
  }

  // ------------------------------------------------------------------------ the main results

  /** Whenever an AUTH, JOIN or MSG was sent, every earlier original but a BYE had been answered
      by a CONFIRM with its own identifier, before anything else was sent. */
  lemma StopAndWait(max: nat, events: seq<Event>, k: nat, n: nat)
    requires var l := Run(Launch(max), events).udp.link;
      k < n < |l.sent| && Request(l.sent[n].kind) && l.sent[k].kind != Farewell
    ensures var l := Run(Launch(max), events).udp.link;
      Confirmed(k + 1, l.sent[k].id) in l.ticks
  {
    RunKeeps(max, events);
    assert AllAnswered(Run(Launch(max), events).udp.link, n);
  }

  lemma WaitsForLatest(l: Link)
    requires Numbered(l) && l.waiting
    ensures |l.last| >= 3 && l.awaited == IdOf(l.last) && l.next == Succ(l.awaited)
  {
    assert Labelled(l.sent[|l.sent| - 1], |l.sent| - 1);
  }

  /** Identifiers count originals modulo 2^16, what is retransmitted is the latest original, and
      the identifier awaited is the one inside it. */
  lemma IdentifiersInOrder(max: nat, events: seq<Event>)
    ensures var l := Run(Launch(max), events).udp.link;
      && (forall k :: 0 <= k < |l.sent| ==> Labelled(l.sent[k], k))
      && Stamped(l) && l.last == Latest(l.sent)
      && (l.waiting ==> |l.last| >= 3 && l.awaited == IdOf(l.last) && l.next == Succ(l.awaited))
  {
    RunKeeps(max, events);
    var l := Run(Launch(max), events).udp.link;
    if l.waiting {
      WaitsForLatest(l);
    }
  }

  /** Only a CONFIRM that carries the awaited identifier, the latest original's, ends the wait. */
  lemma OnlyItsConfirmEndsTheWait(c: Client, e: Event)
    requires c.udp.link.waiting && !Tock(c, e).udp.link.waiting
    ensures e.FromServer? && e.d[0] == CONFIRM && IdOf(e.d) == c.udp.link.awaited
  {
    match e {
      case FromServer(d) => var m := ServerMove(c.udp, d);
      case FromUser(line, _) => var m := UserMove(c.udp, line);
      case Interrupt => var m := UserMove(c.udp, "/exit");
      case EndOfInput => var m := UserMove(c.udp, "/exit");
      case Timeout =>
    }
  }

  /** While an AUTH, JOIN or MSG is waited for, its retransmissions and the retries left add up
      to the configured maximum; so none is transmitted more than 1 + max times unanswered. */
  lemma RetransmissionBudget(max: nat, events: seq<Event>)
    ensures var c := Run(Launch(max), events);
      var l := c.udp.link;
      && (Pending(l) && c.state != Closed ==> Resends(l.ticks, |l.sent|) + c.retry == max)
      && (forall k :: 0 <= k < |l.sent| && Request(l.sent[k].kind) && !Answered(l, k) ==>
            Resends(l.ticks, k + 1) <= max)
  {
    RunKeeps(max, events);
  }

  /** The client originates at most one ERR, and only BYE after it. */
  lemma ErrorPhase(max: nat, events: seq<Event>, i: nat, j: nat)
    requires var l := Run(Launch(max), events).udp.link;
      i < j < |l.sent| && l.sent[i].kind == Failure
    ensures Run(Launch(max), events).udp.link.sent[j].kind == Farewell
  {
    RunKeeps(max, events);
  }

  /** The originals of `r` are those of `l` and some more, none of them a request. */
  predicate NoNewRequest(l: Link, r: Link) {
    l.sent <= r.sent && forall k :: |l.sent| <= k < |r.sent| ==> !Request(r.sent[k].kind)
  }

  lemma NoRequestMove(l: Link, m: Move)
    requires l.errorPending && !m.Submit?
    ensures Apply(l, m).errorPending && NoNewRequest(l, Apply(l, m))
  {
  }

  lemma PendingErrorTock(c: Client, e: Event)
    requires c.udp.link.errorPending
    ensures Tock(c, e).udp.link.errorPending && NoNewRequest(c.udp.link, Tock(c, e).udp.link)
  {
    var l := c.udp.link;
    var m := Keep;
    match e {
      case FromServer(d) => m := ServerMove(c.udp, d);
      case FromUser(line, _) => m := UserMove(c.udp, line);
      case Interrupt => m := UserMove(c.udp, "/exit");
      case EndOfInput => m := UserMove(c.udp, "/exit");
      case Timeout => m := Repeat;
    }
    NoRequestMove(l, m);
    assert Tock(c, e).udp.link in {l, Apply(l, m)};
  }

  /** Once an error has been put off, no AUTH, JOIN or MSG is ever originated again. */
  lemma {:induction false} PendingErrorSilences(c: Client, events: seq<Event>)
    requires c.udp.link.errorPending
    ensures Run(c, events).udp.link.errorPending
    ensures NoNewRequest(c.udp.link, Run(c, events).udp.link)
  {
    if |events| > 0 {
      var init := events[..|events| - 1];
      PendingErrorSilences(c, init);
      PendingErrorTock(Run(c, init), events[|events| - 1]);
    }
  }

  // -------------------------------------------------------------------------------- shutdown

  /** On the way out: something is waited for that ends in BYE or in the end itself. */
  predicate Closing(c: Client) {
    var l := c.udp.link;
    c.state == WaitingForConfirmation && l.waiting && (l.awaitingOver || l.errorSent)
  }

  function Timeouts(events: seq<Event>): nat {
    if |events| == 0 then 0
    else Timeouts(events[..|events| - 1]) + if events[|events| - 1].Timeout? then 1 else 0
  }

  lemma ClosingTock(c: Client, e: Event)
    requires Closing(c)
    ensures var n := Tock(c, e);
      n.state == Closed
      || (Closing(n) && n.retry == c.retry - if e.Timeout? then 1 else 0)
  {
    match e {
      case FromServer(d) => var m := ServerMove(c.udp, d);
      case Interrupt => var m := UserMove(c.udp, "/exit");
      case _ =>
    }
  }

  /** Retries left only go down, one for each timeout, whatever else arrives in between. */
  lemma {:induction false} ClosingRun(c: Client, events: seq<Event>)
    requires Closing(c)
    ensures var n := Run(c, events);
      n.state == Closed || (Closing(n) && n.retry + Timeouts(events) == c.retry)
  {
    if |events| > 0 {
      var init := events[..|events| - 1];
      ClosingRun(c, init);
      if Run(c, init).state != Closed {
        ClosingTock(Run(c, init), events[|events| - 1]);
      }
    }
  }

  predicate AsksToLeave(c: Client, e: Event) {
    || (e.Interrupt? && c.armed && c.state != Closed)
    || (e.EndOfInput? && Listening(c.state))
    || (e.FromUser? && e.line == "/exit" && Listening(c.state))
  }

  /** After `/exit`, end of input or an interrupt at any point of any run, the loop ends within
      max + 1 timeouts, whatever datagrams and lines are interleaved with them. */
  lemma ShutdownTerminates(max: nat, before: seq<Event>, leave: Event, rest: seq<Event>)
    requires AsksToLeave(Run(Launch(max), before), leave)
    requires Timeouts(rest) > max
    ensures Run(Tock(Run(Launch(max), before), leave), rest).state == Closed
  {
    var c := Run(Launch(max), before);
    RunKeeps(max, before);
    var m := UserMove(c.udp, "/exit");
    assert Closing(Tock(c, leave));
    ClosingRun(Tock(c, leave), rest);
  }
}
