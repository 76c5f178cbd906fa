/** The CONFIRMs the client sends: every identifier it records was confirmed when it arrived. */
module UdpReceipts {
  import opened Octets
  import opened UdpRecords
  import opened UdpMachine
  import opened UdpDelivery

  predicate Receipted(receipts: seq<Receipt>, id: MsgId) {
    exists k :: 0 <= k < |receipts| && receipts[k].id == id
  }

  /** Every recorded identifier has been confirmed. */
  predicate AllReceipted(u: Udp) {
    forall id :: id in u.received ==> Receipted(u.receipts, id)
  }

  /** At most one CONFIRM is sent, and at most the identifier it carries is recorded. */
  predicate Receives(u: Udp, v: Udp) {
    || (v.receipts == u.receipts && v.received == u.received)
    || (exists id ::
          && v.receipts == u.receipts + [Receipt(|u.link.sent|, id)]
          && v.received in {u.received, u.received + [id]})
  }

  lemma ReplyReceives(u: Udp, d: Datagram)
    ensures Receives(u, OnReplyRecord(u, d).0)
  {
    if |d| >= 6 {
      assert OnReplyRecord(u, d).0.receipts in {u.receipts, u.receipts + [Receipt(|u.link.sent|, IdOf(d))]};
    }
  }

  lemma ErrReceives(u: Udp, d: Datagram)
    ensures Receives(u, OnErrRecord(u, d).0)
  {
    if |d| >= 4 {
      assert OnErrRecord(u, d).0.receipts == u.receipts + [Receipt(|u.link.sent|, IdOf(d))];
    }
  }

  lemma ServerReceives(u: Udp, d: Datagram)
    ensures Receives(u, ServerStep(u, d).0)
  {
    if d[0] == REPLY {
      ReplyReceives(u, d);
    } else if d[0] == ERR {
      ErrReceives(u, d);
    }
  }

  lemma UserReceives(u: Udp, line: Text)
    ensures UserStep(u, line).0.receipts == u.receipts && UserStep(u, line).0.received == u.received
  {
    var m := UserMove(u, line);
  }

  lemma TockReceives(c: Client, e: Event)
    ensures Receives(c.udp, Tock(c, e).udp)
  {
    match e {
      case FromServer(d) => ServerReceives(c.udp, d);
      case FromUser(line, _) => UserReceives(c.udp, line);
      case Timeout =>
      case _ => UserReceives(c.udp, "/exit");
    }
  }

  lemma ReceiptedGrows(receipts: seq<Receipt>, more: seq<Receipt>, id: MsgId)
    requires Receipted(receipts, id) && receipts <= more
    ensures Receipted(more, id)
  {
    var k :| 0 <= k < |receipts| && receipts[k].id == id;
    assert more[k] == receipts[k];
  }

  lemma ReceivesKeeps(u: Udp, v: Udp)
    requires AllReceipted(u) && Receives(u, v)
    ensures AllReceipted(v)
  {
    forall id | id in v.received ensures Receipted(v.receipts, id) {
      if id in u.received {
        ReceiptedGrows(u.receipts, v.receipts, id);
      } else {
        assert v.receipts[|u.receipts|].id == id;
      }
    }
  }

  /** Over every run, nothing is recorded without having been confirmed. */
  lemma {:induction false} RecordedAreConfirmed(max: nat, events: seq<Event>)
    ensures AllReceipted(Run(Launch(max), events).udp)
  {
    if |events| > 0 {
      var init := events[..|events| - 1];
      RecordedAreConfirmed(max, init);
      TockReceives(Run(Launch(max), init), events[|events| - 1]);
      ReceivesKeeps(Run(Launch(max), init).udp, Run(Launch(max), events).udp);
    }
  }
}
