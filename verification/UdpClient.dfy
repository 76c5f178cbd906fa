/** The client as `main` runs it over UDP: what holds of the objects themselves, whatever `poll`
    reports. */
module UdpClient {
  import opened Session
  import opened Common
  import opened UdpMachine
  import opened UdpDelivery
  import opened UdpReceipts
  import opened UdpSession
  import opened UdpHandler

  /** When a request left, every earlier original but a BYE had been answered in its own time. */
  ghost predicate SentInTurn(p: UDPProtocolHandler)
    reads p
  {
    forall k, n :: 0 <= k < n < |p.sent| && Request(p.sent[n].kind) && p.sent[k].kind != Farewell ==>
      Confirmed(k + 1, p.sent[k].id) in p.ticks
  }

  /** Retransmissions stay within the configured number. */
  ghost predicate WithinBudget(handler: StreamHandler)
    reads handler, handler.protocolHandler
  {
    var p := handler.protocolHandler;
    && (Pending(p.LinkView()) && handler.state != Closed ==>
          Resends(p.ticks, |p.sent|) + handler.retryCount == handler.retrans)
    && (forall k :: 0 <= k < |p.sent| && Request(p.sent[k].kind) ==>
          Confirmed(k + 1, p.sent[k].id) in p.ticks || Resends(p.ticks, k + 1) <= handler.retrans)
  }

  /** Nothing but BYE follows an ERR. */
  ghost predicate OnlyByeAfterErr(p: UDPProtocolHandler)
    reads p
  {
    forall i, j :: 0 <= i < j < |p.sent| && p.sent[i].kind == Failure ==> p.sent[j].kind == Farewell
  }

  ghost predicate ChatsLoggedIn(p: UDPProtocolHandler)
    reads p
  {
    forall k :: 0 <= k < |p.sent| && p.sent[k].kind in {JoinChannel, Chat} ==> LoggedIn(p.verdicts, k)
  }

  method RunClient(retries: nat, reports: seq<Event>) returns (handler: StreamHandler)
    ensures fresh(handler) && handler.retrans == retries
    ensures SentInTurn(handler.protocolHandler) && WithinBudget(handler)
    ensures OnlyByeAfterErr(handler.protocolHandler) && ChatsLoggedIn(handler.protocolHandler)
    ensures Distinct(handler.protocolHandler.shown, handler.protocolHandler.receivedIds)
    ensures AllCameFrom(reports, handler.protocolHandler.shown)
    ensures forall id :: id in handler.protocolHandler.receivedIds ==>
      Receipted(handler.protocolHandler.receipts, id)
  {
    handler := new StreamHandler(retries);
    handler.RunEventLoop(reports);
    ghost var p := handler.protocolHandler;
    ghost var c := Run(Launch(retries), reports);
    assert c == handler.View();
    RunKeeps(retries, reports);
    RetransmissionBudget(retries, reports);
    forall k, n | 0 <= k < n < |p.sent| && Request(p.sent[n].kind) && p.sent[k].kind != Farewell
      ensures Confirmed(k + 1, p.sent[k].id) in p.ticks
    {
      StopAndWait(retries, reports, k, n);
    }
    forall i, j | 0 <= i < j < |p.sent| && p.sent[i].kind == Failure ensures p.sent[j].kind == Farewell {
      ErrorPhase(retries, reports, i, j);
    }
    forall k | 0 <= k < |p.sent| && p.sent[k].kind in {JoinChannel, Chat} ensures LoggedIn(p.verdicts, k) {
      NoChatBeforeLogin(retries, reports, k);
    }
    DisplayedAtMostOnce(retries, reports);
    ShownCameFromServer(retries, reports);
    RecordedAreConfirmed(retries, reports);
  }

  /** Told to leave at any point, the loop comes to its end: max + 1 timeouts are enough. */
  method RunToTheEnd(retries: nat, before: seq<Event>, leave: Event, rest: seq<Event>)
      returns (handler: StreamHandler)
    requires AsksToLeave(Run(Launch(retries), before), leave) && Timeouts(rest) > retries
    ensures fresh(handler) && handler.state == Closed
  {
    handler := new StreamHandler(retries);
    handler.RunEventLoop(before);
    handler.Turn(leave);
    handler.RunEventLoop(rest);
    ShutdownTerminates(retries, before, leave, rest);
  }
}
