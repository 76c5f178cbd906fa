/** What a datagram does to the UDP client, told by what can be observed: CONFIRMs, recorded
    identifiers, the terminal, the originals sent, the reply awaited and what the loop waits for. */
module UdpEffects {
  import opened Octets
  import opened Grammar
  import opened UdpRecords
  import opened Session
  import opened Common
  import opened UdpMachine
  import opened UdpDelivery
  import opened UdpSession

  // --------------------------------------------------------------------------- the originals

  /** The code of each kind of message on the wire. */
  function WireCode(kind: Kind): int {
    match kind
    case Authorize => 2
    case JoinChannel => 3
    case Chat => 4
    case Failure => 254
    case Farewell => 255
  }

  /** One new original has left: it says these fields under the next identifier, it is what would
      be retransmitted, and its CONFIRM is what would be recognised. */
  predicate Posts(l: Link, r: Link, kind: Kind, fields: seq<Text>) {
    && Originates(l, r, kind) && r.ticks == l.ticks
    && var o := r.sent[|l.sent|];
       && o.id == l.next && Spells(o.data, WireCode(kind), l.next, fields)
       && r.last == o.data && r.awaited == o.id && r.next == Succ(o.id)
  }

  /** The display name can be part of any record. */
  predicate Clean(name: Text) {
    |name| == 0 || ValidName(name)
  }

  lemma AskPosts(l: Link, kind: Kind, fields: seq<Text>)
    requires AllFree(fields, NUL)
    ensures Posts(l, Ask(l, kind, fields), kind, fields)
  {
    RecordSpells(Code(kind), l.next, fields);
  }

  lemma LeavePosts(l: Link)
    ensures Posts(l, Leave(l), Farewell, [])
  {
    RecordSpells(BYE, l.next, []);
  }

  // ----------------------------------------------------------------------------- objections

  /** The error is sent under the client's own name and waited for, or put off while something
      else is waited for; nothing else about the link changes. */
  predicate Objected(u: Udp, v: Udp, text: Text) {
    if u.link.waiting then v.link == u.link.(errorPending := true, errorText := text)
    else
      && Posts(u.link, v.link, Failure, [u.name, text])
      && v.link.waiting && v.link.errorSent && v.link.awaitingOver == u.link.awaitingOver
      && v.link.errorPending == u.link.errorPending && v.link.errorText == u.link.errorText
  }

  lemma ProtestObjects(u: Udp, text: Text)
    requires Clean(u.name) && Free(text, NUL)
    ensures Objected(u, Protest(u, text), text)
  {
    if !u.link.waiting {
      AskPosts(u.link, Failure, [u.name, text]);
    }
  }

  /** What is wrong with a datagram, in the handler's words; nothing if nothing is. */
  function Fault(u: Udp, d: Datagram): Text {
    if d[0] == CONFIRM then []
    else if d[0] == REPLY then
      if |d| < 6 then SHORT_REPLY
      else if !Readable(OnReply, d[6..]) then BAD_REPLY_CONTENT
      else if !ReadsAsReply(d) then BAD_REPLY_STATUS
      else if AcceptedReply(u, d) then []
      else if Positive(d) then BAD_REPLY_STATE else BAD_NREPLY_STATE
    else if d[0] == MSG then
      if |d| < 3 then SHORT_MSG
      else if !Readable(OnMsg, d[3..]) then BAD_MSG_CONTENT
      else if AcceptedMsg(u, d) then [] else BAD_MSG_STATE
    else if d[0] == ERR then
      if |d| < 4 then SHORT_ERR
      else if !Readable(OnErr, d[3..]) then BAD_ERR_CONTENT
      else if AcceptedErr(u, d) then [] else BAD_ERR_STATE
    else if d[0] == BYE && |d| >= 3 then []
    else if d[0] == BYE then SHORT_BYE else BAD_FORMAT
  }

  lemma ReplyFaultsAreClean()
    ensures Free(SHORT_REPLY, NUL) && Free(BAD_REPLY_CONTENT, NUL) && Free(BAD_REPLY_STATUS, NUL)
    ensures Free(BAD_REPLY_STATE, NUL) && Free(BAD_NREPLY_STATE, NUL)
  {
  }

  lemma OtherFaultsAreClean()
    ensures Free(SHORT_MSG, NUL) && Free(BAD_MSG_CONTENT, NUL) && Free(BAD_MSG_STATE, NUL)
    ensures Free(SHORT_ERR, NUL) && Free(BAD_ERR_CONTENT, NUL) && Free(BAD_ERR_STATE, NUL)
    ensures Free(SHORT_BYE, NUL) && Free(BAD_FORMAT, NUL)
  {
  }

  lemma FaultsAreClean(u: Udp, d: Datagram)
    ensures Free(Fault(u, d), NUL)
  {
    ReplyFaultsAreClean();
    OtherFaultsAreClean();
    var words := {[], SHORT_REPLY, BAD_REPLY_CONTENT, BAD_REPLY_STATUS, BAD_REPLY_STATE, BAD_NREPLY_STATE,
                  SHORT_MSG, BAD_MSG_CONTENT, BAD_MSG_STATE, SHORT_ERR, BAD_ERR_CONTENT, BAD_ERR_STATE,
                  SHORT_BYE, BAD_FORMAT};
    assert Fault(u, d) in words;
  }

  // ------------------------------------------------------------------ what is confirmed and kept

  /** A reply the session lets through. */
  predicate AcceptedReply(u: Udp, d: Datagram) {
    ReadsAsReply(d) && Step(u.fsm, ReplyAction(d)).1 == Allow
  }

  predicate AwaitedReply(u: Udp, d: Datagram) {
    AcceptedReply(u, d) && RefOf(d) == u.awaitReply
  }

  /** Datagrams that are confirmed: a BYE, an ERR, a REPLY whose text can be read whatever becomes
      of it, a MSG only if it is let through, and anything of no known type. */
  predicate IsConfirmed(u: Udp, d: Datagram) {
    && |d| >= 3
    && match d[0] as int
       case 0 => false
       case 1 => |d| >= 6 && Readable(OnReply, d[6..])
       case 4 => AcceptedMsg(u, d)
       case 254 => |d| >= 4
       case _ => true
  }

  /** Datagrams whose identifier is recorded. */
  predicate Recorded(u: Udp, d: Datagram) {
    || (d[0] == BYE && |d| >= 3)
    || AwaitedReply(u, d)
    || ((AcceptedMsg(u, d) || AcceptedErr(u, d)) && IdOf(d) !in u.received)
  }

  /** What such a datagram puts on the terminal. */
  function Displayed(u: Udp, d: Datagram): seq<Line> {
    if AwaitedReply(u, d) then [LineOfReply(d)]
    else if (AcceptedMsg(u, d) || AcceptedErr(u, d)) && IdOf(d) !in u.received then [LineOf(d)]
    else []
  }

  /** What the loop is told, unless something is waited for. */
  function Told(u: Udp, d: Datagram): ClientState {
    if d[0] == BYE && |d| >= 3 then Closed
    else if AcceptedReply(u, d) && !AwaitedReply(u, d) && !Positive(d) then WaitingForReply
    else ReadyForInput
  }

  /** The histories and the reply awaited, after a datagram that is no CONFIRM. */
  predicate Handled(u: Udp, v: Udp, d: Datagram) {
    && v.receipts == u.receipts + (if IsConfirmed(u, d) then [Receipt(|u.link.sent|, IdOf(d))] else [])
    && v.received == u.received + (if Recorded(u, d) then [IdOf(d)] else [])
    && v.shown == u.shown + Displayed(u, d)
    && v.name == u.name
    && v.waitReply == (u.waitReply && !AwaitedReply(u, d))
    && v.awaitReply == if AwaitedReply(u, d) then NONE else u.awaitReply
  }

  /** The link after such a datagram: an objection, the BYE that answers an ERR, or nothing. */
  predicate Linked(u: Udp, v: Udp, d: Datagram) {
    if |Fault(u, d)| > 0 then Objected(u, v, Fault(u, d))
    else if AcceptedErr(u, d) then
      && Posts(u.link, v.link, Farewell, [])
      && v.link.waiting == (u.link.waiting || IdOf(d) in u.received) && v.link.awaitingOver
      && v.link.errorSent == u.link.errorSent
      && v.link.errorPending == u.link.errorPending && v.link.errorText == u.link.errorText
    else v.link == u.link
  }

  /** The action a datagram stands for, if it can be read. */
  function ActionsOf(d: Datagram): seq<Action> {
    if ReadsAsReply(d) then [ReplyAction(d)]
    else if d[0] == MSG && |d| >= 3 && Readable(OnMsg, d[3..]) then [MessageServer]
    else if d[0] == ERR && |d| >= 4 && Readable(OnErr, d[3..]) then [ErrorServer]
    else []
  }

  /** What it means for a datagram that is no CONFIRM to be handled right: the session is asked
      about what can be read, and about nothing else, and the rest follows from its answer. */
  predicate DoesRight(u: Udp, d: Datagram, a: Answer) {
    && Asked(u, a.0, ActionsOf(d)) && Handled(u, a.0, d) && Linked(u, a.0, d)
    && a.1 == if a.0.link.waiting then WaitingForConfirmation else Told(u, d)
  }

  /** The answer of `process_received` before the handler looks at what it waits for. */
  function Gated(a: Answer): Answer {
    (a.0, if a.0.link.waiting then WaitingForConfirmation else a.1)
  }

  lemma ObjectionDoesRight(u: Udp, w: Udp, d: Datagram)
    requires Clean(u.name) && |Fault(u, d)| > 0
    requires w.link == u.link && w.name == u.name && Handled(u, w, d) && Asked(u, w, ActionsOf(d))
    ensures DoesRight(u, d, Gated(Objection(w, Fault(u, d))))
  {
    FaultsAreClean(u, d);
    ProtestObjects(w, Fault(u, d));
  }

  lemma IllegibleReplyDoesRight(u: Udp, d: Datagram)
    requires Clean(u.name) && d[0] == REPLY && !ReadsAsReply(d)
    ensures DoesRight(u, d, ServerStep(u, d))
  {
    var readable := |d| >= 6 && Readable(OnReply, d[6..]);
    ObjectionDoesRight(u, if readable then Acknowledge(u, IdOf(d)) else u, d);
  }

  lemma RefusedReplyDoesRight(u: Udp, d: Datagram)
    requires Clean(u.name) && ReadsAsReply(d) && Step(u.fsm, ReplyAction(d)).1 == Fail
    ensures DoesRight(u, d, ServerStep(u, d))
  {
    ObjectionDoesRight(u, Acknowledge(Consult(u, ReplyAction(d)).0, IdOf(d)), d);
  }

  lemma AcceptedReplyDoesRight(u: Udp, d: Datagram)
    requires AcceptedReply(u, d)
    ensures DoesRight(u, d, ServerStep(u, d))
  {
  }

  lemma ReplyDoesRight(u: Udp, d: Datagram)
    requires Held(u.fsm) && Clean(u.name) && d[0] == REPLY
    ensures DoesRight(u, d, ServerStep(u, d))
  {
    if !ReadsAsReply(d) {
      IllegibleReplyDoesRight(u, d);
    } else {
      StepIsProper(u.fsm, ReplyAction(d));
      if AcceptedReply(u, d) {
        AcceptedReplyDoesRight(u, d);
      } else {
        RefusedReplyDoesRight(u, d);
      }
    }
  }

  lemma IllegibleMsgDoesRight(u: Udp, d: Datagram)
    requires Clean(u.name) && d[0] == MSG && (|d| < 3 || !Readable(OnMsg, d[3..]))
    ensures DoesRight(u, d, ServerStep(u, d))
  {
    ObjectionDoesRight(u, u, d);
  }

  lemma RefusedMsgDoesRight(u: Udp, d: Datagram)
    requires Clean(u.name) && d[0] == MSG && |d| >= 3 && Readable(OnMsg, d[3..]) && !AcceptedMsg(u, d)
    ensures DoesRight(u, d, ServerStep(u, d))
  {
    ObjectionDoesRight(u, Consult(u, MessageServer).0, d);
  }

  lemma AcceptedMsgDoesRight(u: Udp, d: Datagram)
    requires AcceptedMsg(u, d)
    ensures DoesRight(u, d, ServerStep(u, d))
  {
  }

  lemma MsgDoesRight(u: Udp, d: Datagram)
    requires Clean(u.name) && d[0] == MSG
    ensures DoesRight(u, d, ServerStep(u, d))
  {
    if |d| < 3 || !Readable(OnMsg, d[3..]) {
      IllegibleMsgDoesRight(u, d);
    } else if AcceptedMsg(u, d) {
      AcceptedMsgDoesRight(u, d);
    } else {
      RefusedMsgDoesRight(u, d);
    }
  }

  lemma IllegibleErrDoesRight(u: Udp, d: Datagram)
    requires Clean(u.name) && d[0] == ERR && (|d| < 4 || !Readable(OnErr, d[3..]))
    ensures DoesRight(u, d, ServerStep(u, d))
  {
    ObjectionDoesRight(u, if |d| < 4 then u else Acknowledge(u, IdOf(d)), d);
  }

  lemma RefusedErrDoesRight(u: Udp, d: Datagram)
    requires Clean(u.name) && d[0] == ERR && |d| >= 4 && Readable(OnErr, d[3..]) && !AcceptedErr(u, d)
    ensures DoesRight(u, d, ServerStep(u, d))
  {
    ObjectionDoesRight(u, Acknowledge(Consult(u, ErrorServer).0, IdOf(d)), d);
  }

  lemma AcceptedErrDoesRight(u: Udp, d: Datagram)
    requires AcceptedErr(u, d)
    ensures DoesRight(u, d, ServerStep(u, d))
  {
    LeavePosts(u.link);
  }

  lemma ErrDoesRight(u: Udp, d: Datagram)
    requires Clean(u.name) && d[0] == ERR
    ensures DoesRight(u, d, ServerStep(u, d))
  {
    if |d| < 4 || !Readable(OnErr, d[3..]) {
      IllegibleErrDoesRight(u, d);
    } else if AcceptedErr(u, d) {
      AcceptedErrDoesRight(u, d);
    } else {
      RefusedErrDoesRight(u, d);
    }
  }

  lemma OtherDoesRight(u: Udp, d: Datagram)
    requires Clean(u.name) && d[0] !in {CONFIRM, REPLY, MSG, ERR}
    ensures DoesRight(u, d, ServerStep(u, d))
  {
    if |d| < 3 {
      ObjectionDoesRight(u, u, d);
    } else if d[0] != BYE {
      ObjectionDoesRight(u, Acknowledge(u, IdOf(d)), d);
    }
  }

  lemma ServerDoesRight(u: Udp, d: Datagram)
    requires Held(u.fsm) && Clean(u.name) && d[0] != CONFIRM
    ensures DoesRight(u, d, ServerStep(u, d))
  {
    if d[0] == REPLY {
      ReplyDoesRight(u, d);
    } else if d[0] == MSG {
      MsgDoesRight(u, d);
    } else if d[0] == ERR {
      ErrDoesRight(u, d);
    } else {
      OtherDoesRight(u, d);
    }
  }

  // ------------------------------------------------------------------------------- a CONFIRM

  /** The link and the wait after a CONFIRM. It is noted; one that carries another identifier than
      the awaited has no other effect. The right one ends the wait, unless it was an ERR that was
      waited for: then BYE follows. */
  predicate ConfirmedRight(u: Udp, d: Datagram, a: Answer)
    requires d[0] == CONFIRM
  {
    var l, r := u.link, a.0.link;
    var right := IdOf(d) == l.awaited;
    var apology := right && l.errorSent && !l.awaitingOver;
    && a.0 == u.(link := r, waitReply := u.waitReply && (!right || apology || l.awaitingOver))
    && r.ticks == l.ticks + [Tick.Confirmed(|l.sent|, IdOf(d))]
    && r.waiting == (l.waiting && (!right || apology))
    && (if apology then Posts(l.(ticks := r.ticks), r, Farewell, []) && r.awaitingOver && !r.errorSent
        else
          && r.sent == l.sent && r.next == l.next && r.last == l.last
          && r.awaitingOver == l.awaitingOver && r.errorSent == l.errorSent
          && r.awaited == if right then NONE else l.awaited)
    && r.errorPending == l.errorPending && r.errorText == l.errorText
    && a.1 == (if !right || apology then WaitingForConfirmation
               else if l.awaitingOver then Closed
               else if u.waitReply then WaitingForReply else ReadyForInput)
  }

  lemma ConfirmDoesRight(u: Udp, d: Datagram)
    requires d[0] == CONFIRM && (u.link.errorSent ==> u.link.waiting)
    ensures ConfirmedRight(u, d, ServerStep(u, d))
  {
    LeavePosts(u.link);
  }
}
