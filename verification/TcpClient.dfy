/** The client as `main` runs it over TCP: what holds of the objects themselves, whatever `poll`
    reports and however the stream is cut. */
module TcpClient {
  import opened Session
  import opened Common
  import opened Login
  import opened Framing
  import opened TcpMachine
  import opened TcpSession
  import TcpReplies
  import opened TcpHandler

  /** Frames handed on and buffer make up what was received, and the frames are its first ones. */
  ghost predicate FramedInOrder(p: TCPProtocolHandler)
    reads p
  {
    && Wire(p.delivered) + p.buffer == p.heard && AllWhole(p.delivered)
    && p.delivered <= Frames(p.heard)
  }

  ghost predicate ChatsLoggedIn(p: TCPProtocolHandler)
    reads p
  {
    forall k :: 0 <= k < |p.sent| && p.sent[k].kind in {JoinChannel, Chat} ==> LoggedIn(p.verdicts, k)
  }

  /** The machine is in a working state while the loop is live, and every answer had a branch. */
  ghost predicate SessionWorks(handler: StreamHandler)
    reads handler, handler.protocolHandler, handler.protocolHandler.fsm
  {
    var p := handler.protocolHandler;
    && (handler.state != Closed ==> p.fsm.currentState in {Start, Auth, Open})
    && (forall k :: 0 <= k < |p.verdicts| ==> Proper(p.verdicts[k]))
  }

  /** Replies displayed and awaited do not outnumber the requests sent. */
  ghost predicate RepliesCovered(p: TCPProtocolHandler)
    reads p
  {
    TcpReplies.Replies(p.shown) + (if p.waitingForReply then 1 else 0) <= TcpReplies.Asks(p.sent)
  }

  method RunClient(retries: nat, reports: seq<Event>) returns (handler: StreamHandler)
    ensures fresh(handler)
    ensures FramedInOrder(handler.protocolHandler)
    ensures handler.state != Closed ==> handler.protocolHandler.heard == Bytes(reports)
    ensures ChatsLoggedIn(handler.protocolHandler) && SessionWorks(handler)
    ensures RepliesCovered(handler.protocolHandler)
  {
    handler := new StreamHandler(retries);
    handler.RunEventLoop(reports);
    ghost var p := handler.protocolHandler;
    ghost var c := Run(Launch(retries), reports);
    assert c == handler.View();
    FramesInOrder(retries, reports);
    RunLive(retries, reports);
    TcpReplies.ReplyCredit(retries, reports);
    forall k | 0 <= k < |p.sent| && p.sent[k].kind in {JoinChannel, Chat} ensures LoggedIn(p.verdicts, k) {
      NoChatBeforeLogin(retries, reports, k);
    }
  }
}
