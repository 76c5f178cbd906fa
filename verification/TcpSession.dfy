/** The TCP client over every run: framing, the session's answers, logging in, and messages
    arriving whole however the stream is cut. */
module TcpSession {
  import opened Octets
  import opened Grammar
  import opened Session
  import opened Common
  import opened Login
  import opened TcpText
  import opened Framing
  import opened TcpMachine

  // -------------------------------------------------------------------------------- framing

  /** Nothing received is lost, repeated or reordered between the frames and the buffer. */
  predicate Streamed(t: Tcp) {
    Wire(t.delivered) + t.buffer == t.heard && AllWhole(t.delivered)
  }

  lemma StreamedCanonical(t: Tcp)
    requires Streamed(t)
    ensures Frames(t.heard) == t.delivered + Frames(t.buffer)
    ensures Unfinished(t.heard) == Unfinished(t.buffer)
  {
    CutWire(t.delivered, t.buffer);
  }

  lemma TakenStreamed(t: Tcp)
    requires Streamed(t) && HasFrame(t.buffer)
    ensures Streamed(Taken(t))
  {
    var f := Head(t.buffer);
    HeadWhole(t.buffer);
    WireConcat(t.delivered, [f]);
    assert Wire([f]) == f + CRLF by { WirePeel([f], []); }
    Regroup(Wire(t.delivered), f, Rest(t.buffer));
  }

  lemma Regroup(a: Text, f: Text, rest: Text)
    ensures a + (f + CRLF) + rest == a + (f + CRLF + rest)
  {
  }

  lemma {:induction false} DrainStreamed(t: Tcp, strays: Strays, k: nat)
    requires Streamed(t)
    ensures var (v, r) := Drain(t, strays, k);
      Streamed(v) && v.heard == t.heard && (r == ReadyForInput ==> Whole(v.buffer))
    decreases |t.buffer|
  {
    if HasFrame(t.buffer) {
      var (v, r) := Received(Taken(t), Head(t.buffer));
      TakenStreamed(t);
      if Settle(r, strays(k)) == ReadyForInput {
        DrainStreamed(v, strays, k + 1);
      }
    }
  }

  lemma FeedStreamed(t: Tcp, chunk: Text, strays: Strays)
    requires Streamed(t)
    ensures var (v, r) := Feed(t, chunk, strays);
      Streamed(v) && v.heard == t.heard + chunk && (r == ReadyForInput ==> Whole(v.buffer))
  {
    assert Wire(t.delivered) + (t.buffer + chunk) == Wire(t.delivered) + t.buffer + chunk;
    DrainStreamed(Buffered(t, chunk), strays, 0);
  }

  /** All the bytes a list of events brings in. */
  function Bytes(events: seq<Event>): Text {
    if |events| == 0 then []
    else Bytes(events[..|events| - 1]) + Brought(events[|events| - 1])
  }

  function Brought(e: Event): Text {
    if e.Chunk? then e.bytes else []
  }

  lemma TockStreamed(c: Client, e: Event)
    requires Streamed(c.tcp)
    ensures Streamed(Tock(c, e).tcp)
    ensures c.state != Closed ==> Tock(c, e).tcp.heard == c.tcp.heard + Brought(e)
    ensures c.state != Closed && e.Chunk? && |e.bytes| > 0 && Tock(c, e).state == ReadyForInput ==>
      Whole(Tock(c, e).tcp.buffer)
  {
    match e {
      case Chunk(bytes, strays) => FeedStreamed(c.tcp, bytes, strays);
      case _ =>
    }
  }

  lemma {:induction false} RunStreamed(max: nat, events: seq<Event>)
    ensures var c := Run(Launch(max), events);
      Streamed(c.tcp) && (c.state != Closed ==> c.tcp.heard == Bytes(events))
  {
    if |events| > 0 {
      var init := events[..|events| - 1];
      RunStreamed(max, init);
      TockStreamed(Run(Launch(max), init), events[|events| - 1]);
    } else {
      assert Wire([]) + [] == [];
    }
  }

  /** However the bytes are cut into `recv` chunks: the frames handed on are the first of the
      frames of everything received, none of them contains CR LF, and the rest is in the buffer. */
  lemma FramesInOrder(max: nat, events: seq<Event>)
    ensures var c := Run(Launch(max), events);
      var t := c.tcp;
      && Wire(t.delivered) + t.buffer == t.heard && AllWhole(t.delivered)
      && t.delivered <= Frames(t.heard)
      && (c.state != Closed ==> t.heard == Bytes(events))
  {
    RunStreamed(max, events);
    StreamedCanonical(Run(Launch(max), events).tcp);
  }

  /** When a chunk is answered READY_FOR_INPUT, every complete frame has been handed on. */
  lemma ReadyMeansDrained(max: nat, events: seq<Event>, bytes: Text, strays: Strays)
    requires Run(Launch(max), events).state != Closed && |bytes| > 0
    requires Tock(Run(Launch(max), events), Chunk(bytes, strays)).state == ReadyForInput
    ensures var t := Tock(Run(Launch(max), events), Chunk(bytes, strays)).tcp;
      t.delivered == Frames(t.heard) && t.buffer == Unfinished(t.heard)
  {
    var c := Run(Launch(max), events);
    RunStreamed(max, events);
    TockStreamed(c, Chunk(bytes, strays));
    StreamedCanonical(Tock(c, Chunk(bytes, strays)).tcp);
  }

  /** So two runs that have received the same bytes agree on the frames handed on, up to how far
      each has got. */
  lemma ChunkingIsInvisible(s: Tcp, t: Tcp)
    requires Streamed(s) && Streamed(t) && s.heard == t.heard
    ensures s.delivered <= t.delivered || t.delivered <= s.delivered
    ensures Whole(s.buffer) && Whole(t.buffer) ==> s.delivered == t.delivered && s.buffer == t.buffer
  {
    StreamedCanonical(s);
    StreamedCanonical(t);
    var all := Frames(s.heard);
    assert s.delivered == all[..|s.delivered|] && t.delivered == all[..|t.delivered|];
  }

  // ----------------------------------------------------------- messages arrive as they were sent

  datatype Message = Message(name: Text, content: Text)

  predicate Sendable(m: Message) {
    ValidName(m.name) && Free(m.name, SP) && ValidContent(m.content)
  }

  predicate AllSendable(ms: seq<Message>) {
    forall k :: 0 <= k < |ms| ==> Sendable(ms[k])
  }

  /** What the peers' clients put on the wire for these messages. */
  function Transcript(ms: seq<Message>): Text {
    if |ms| == 0 then [] else MsgLine(ms[0].name, ms[0].content) + CRLF + Transcript(ms[1..])
  }

  function Screen(ms: seq<Message>): seq<Line> {
    Map((m: Message) => FromPeer(m.name, m.content), ms)
  }

  /** The chat messages among the lines shown. */
  function Peers(shown: seq<Line>): seq<Line> {
    if |shown| == 0 then []
    else
      var last := shown[|shown| - 1];
      Peers(shown[..|shown| - 1]) + if last.FromPeer? then [last] else []
  }

  lemma PeersStep(shown: seq<Line>, line: Line)
    ensures Peers(shown + [line]) == Peers(shown) + if line.FromPeer? then [line] else []
  {
    assert (shown + [line])[..|shown|] == shown;
  }

  /** Logged in. */
  predicate Chatting(t: Tcp) {
    t.fsm.current == Open && t.fsm.expected == [Any]
  }

  lemma MsgLineWhole(m: Message)
    requires Sendable(m)
    ensures Whole(MsgLine(m.name, m.content))
  {
    var line := MsgLine(m.name, m.content);
    PrintableIsClean(m.name);
    PrintableIsClean(m.content);
    assert Free(line, '\n');
    FirstSpec(line);
  }

  lemma MsgLineReceived(t: Tcp, m: Message)
    requires Chatting(t) && Sendable(m)
    ensures var (v, r) := Received(t, MsgLine(m.name, m.content));
      && r == (if t.waitReply then WaitingForReply else ReadyForInput)
      && Chatting(v) && v.waitReply == t.waitReply
      && v.shown == t.shown + [FromPeer(m.name, m.content)]
  {
    var line := MsgLine(m.name, m.content);
    MsgLineIsWords(m.name, m.content);
    KeywordsAreUpper();
    SplitWords4("MSG", "FROM", m.name, "IS", m.content);
    MsgRoundTripExactly(t.name, m.name, m.content);
    assert Split(line, SP)[0] == "MSG";
  }

  lemma TranscriptFront(ms: seq<Message>)
    requires AllSendable(ms) && |ms| > 0
    ensures var s := Transcript(ms);
      HasFrame(s) && Head(s) == MsgLine(ms[0].name, ms[0].content) && Rest(s) == Transcript(ms[1..])
  {
    MsgLineWhole(ms[0]);
    FrameInFront(MsgLine(ms[0].name, ms[0].content), Transcript(ms[1..]));
  }

  /** A complete frame in the buffer is the first message still under way. */
  lemma FrontIsFirst(buffer: Text, later: Text, ms: seq<Message>)
    requires AllSendable(ms) && buffer + later == Transcript(ms) && HasFrame(buffer)
    ensures |ms| > 0 && Head(buffer) == MsgLine(ms[0].name, ms[0].content)
    ensures Rest(buffer) + later == Transcript(ms[1..])
  {
    assert |buffer + later| == |Transcript(ms)|;
    TranscriptFront(ms);
    FrontOfPrefix(buffer, later);
  }

  lemma FrontOfPrefix(a: Text, b: Text)
    requires HasFrame(a)
    ensures HasFrame(a + b) && Head(a + b) == Head(a) && Rest(a + b) == Rest(a) + b
  {
    FirstOfPrefix(a, b);
    FirstSpec(a);
  }

  lemma FirstOfPrefix(a: Text, b: Text)
    requires HasFrame(a)
    ensures First(a + b) == First(a)
  {
    FirstSpec(a);
    FirstSpec(a + b);
    assert forall k :: 0 <= k < |a| ==> (a + b)[k] == a[k];
  }

  /** The chat messages shown since `t` are the first `n` of `ms`. */
  predicate Shown(t: Tcp, v: Tcp, ms: seq<Message>, n: nat) {
    n <= |ms| && Chatting(v) && Peers(v.shown) == Peers(t.shown) + Screen(ms[..n])
  }

  /** ... and the others, apart from what is still to come, are in the buffer. */
  predicate Showing(t: Tcp, v: Tcp, later: Text, ms: seq<Message>, n: nat) {
    Shown(t, v, ms, n) && v.buffer + later == Transcript(ms[n..])
  }

  lemma OneMessage(t: Tcp, later: Text, ms: seq<Message>)
    requires Chatting(t) && AllSendable(ms) && t.buffer + later == Transcript(ms) && HasFrame(t.buffer)
    ensures var (v, r) := Received(Taken(t), Head(t.buffer));
      && |ms| > 0 && Showing(t, v, later, ms, 1) && v.waitReply == t.waitReply
      && r == if t.waitReply then WaitingForReply else ReadyForInput
  {
    FrontIsFirst(t.buffer, later, ms);
    MsgLineReceived(Taken(t), ms[0]);
    OneShown(t, Received(Taken(t), Head(t.buffer)).0, ms);
  }

  lemma OneShown(t: Tcp, v: Tcp, ms: seq<Message>)
    requires |ms| > 0 && Chatting(v)
    requires v.shown == t.shown + [FromPeer(ms[0].name, ms[0].content)]
    ensures Shown(t, v, ms, 1)
  {
    PeersStep(t.shown, FromPeer(ms[0].name, ms[0].content));
    assert Screen(ms[..1]) == [FromPeer(ms[0].name, ms[0].content)];
  }

  lemma ShowingNone(t: Tcp, later: Text, ms: seq<Message>)
    requires Chatting(t) && t.buffer + later == Transcript(ms)
    ensures Showing(t, t, later, ms, 0)
  {
    assert ms[0..] == ms;
    assert Peers(t.shown) + Screen(ms[..0]) == Peers(t.shown);
  }

  lemma ScreenConcat(ms: seq<Message>, a: nat, b: nat)
    requires a + b <= |ms|
    ensures Screen(ms[..a]) + Screen(ms[a..][..b]) == Screen(ms[..a + b]) && ms[a..][b..] == ms[a + b..]
  {
    assert ms[..a] + ms[a..][..b] == ms[..a + b];
  }

  lemma ShownMore(t: Tcp, u: Tcp, v: Tcp, ms: seq<Message>, a: nat, b: nat)
    requires Shown(t, u, ms, a) && Shown(u, v, ms[a..], b)
    ensures Shown(t, v, ms, a + b) && ms[a..][b..] == ms[a + b..]
  {
    ScreenConcat(ms, a, b);
    assert Peers(t.shown) + Screen(ms[..a]) + Screen(ms[a..][..b]) == Peers(t.shown) + Screen(ms[..a + b]);
  }

  /** Draining shows complete messages in order: all of them, unless a reply is awaited; then it
      stops after the first. */
  lemma {:induction false} DrainShows(t: Tcp, strays: Strays, k: nat, later: Text, ms: seq<Message>) returns (n: nat)
    requires Chatting(t) && AllSendable(ms) && t.buffer + later == Transcript(ms)
    ensures var (v, r) := Drain(t, strays, k);
      && Showing(t, v, later, ms, n) && v.waitReply == t.waitReply
      && (!t.waitReply ==> Whole(v.buffer)) && r in {WaitingForReply, ReadyForInput}
    decreases |t.buffer|
  {
    n := 0;
    ShowingNone(t, later, ms);
    if HasFrame(t.buffer) {
      OneMessage(t, later, ms);
      n := 1;
      if !t.waitReply {
        var v := Received(Taken(t), Head(t.buffer)).0;
        var more := DrainShows(v, strays, k + 1, later, ms[1..]);
        n := more + 1;
        ShownMore(t, v, Drain(t, strays, k).0, ms, 1, more);
      }
    }
  }

  /** A line from the user adds no chat message to the screen, leaves the stream alone, and does
      not end the wait for a reply. */
  predicate Aside(t: Tcp, v: Tcp) {
    && (Chatting(t) ==> Chatting(v))
    && v.buffer == t.buffer && Peers(v.shown) == Peers(t.shown) && (t.waitReply ==> v.waitReply)
  }

  lemma NoticeIsAside(t: Tcp, line: Line)
    requires !line.FromPeer?
    ensures Peers(t.shown + [line]) == Peers(t.shown)
  {
    PeersStep(t.shown, line);
  }

  lemma RequestIsAside(t: Tcp, argument: Text)
    requires Chatting(t)
    ensures Aside(t, OnAuth(t, argument).0) && Aside(t, OnJoin(t, argument).0)
  {
    NoticeIsAside(t, Internal(NO_AUTH));
    NoticeIsAside(t, Internal(JoinComplaint(Split(argument, SP))));
  }

  lemma TextIsAside(t: Tcp, line: Text)
    requires Chatting(t)
    ensures Aside(t, OnText(t, line).0)
  {
    NoticeIsAside(t, Internal(BAD_COMMAND));
    NoticeIsAside(t, Internal(BAD_TEXT));
  }

  lemma UserIsAside(t: Tcp, line: Text)
    requires Chatting(t)
    ensures Aside(t, UserStep(t, line).0)
  {
    var command := ToUpper(Command(line));
    if command in {"/AUTH", "/JOIN"} {
      RequestIsAside(t, Argument(line));
    } else if command in {"/RENAME", "/HELP"} {
      NoticeIsAside(t, Internal(BAD_NAME));
      NoticeIsAside(t, Help);
    } else {
      TextIsAside(t, line);
    }
  }

  /** What one event does to the screen and the buffer, if the loop is not closed. */
  predicate Advances(c: Client, d: Client, later: Text, ms: seq<Message>, n: nat) {
    if c.state == Closed then n == 0 && d == c
    else
      && Showing(c.tcp, d.tcp, later, ms, n) && (c.tcp.waitReply ==> d.tcp.waitReply)
      && (Whole(c.tcp.buffer) && !d.tcp.waitReply ==> Whole(d.tcp.buffer))
  }

  lemma ChunkShows(t: Tcp, bytes: Text, strays: Strays, later: Text, ms: seq<Message>) returns (n: nat)
    requires Chatting(t) && AllSendable(ms) && t.buffer + (bytes + later) == Transcript(ms)
    ensures var v := Feed(t, bytes, strays).0;
      && Showing(t, v, later, ms, n) && v.waitReply == t.waitReply && (!t.waitReply ==> Whole(v.buffer))
  {
    assert t.buffer + bytes + later == t.buffer + (bytes + later);
    n := DrainShows(Buffered(t, bytes), strays, 0, later, ms);
  }

  lemma TockShows(c: Client, e: Event, later: Text, ms: seq<Message>) returns (n: nat)
    requires Chatting(c.tcp) && AllSendable(ms)
    requires c.state != Closed ==> c.tcp.buffer + (Brought(e) + later) == Transcript(ms)
    ensures Advances(c, Tock(c, e), later, ms, n)
  {
    n := 0;
    if c.state != Closed {
      if e.Chunk? && |e.bytes| > 0 {
        n := ChunkShows(c.tcp, e.bytes, e.strays, later, ms);
      } else {
        assert Brought(e) + later == later;
        ShowingNone(c.tcp, later, ms);
        QuietTock(c, e);
      }
    }
  }

  lemma QuietTock(c: Client, e: Event)
    requires Chatting(c.tcp) && Brought(e) == []
    ensures Aside(c.tcp, Tock(c, e).tcp)
  {
    match e {
      case FromUser(line, _) => UserIsAside(c.tcp, line);
      case Interrupt => UserIsAside(c.tcp, "/exit");
      case EndOfInput => UserIsAside(c.tcp, "/exit");
      case _ =>
    }
  }

  /** The same over a list of events; once the loop is closed nothing more arrives. */
  predicate Progress(c: Client, d: Client, later: Text, ms: seq<Message>, n: nat) {
    && Shown(c.tcp, d.tcp, ms, n)
    && (c.tcp.waitReply ==> d.tcp.waitReply)
    && (d.state != Closed ==>
          && d.tcp.buffer + later == Transcript(ms[n..])
          && (Whole(c.tcp.buffer) && !d.tcp.waitReply ==> Whole(d.tcp.buffer)))
  }

  lemma BytesLast(events: seq<Event>, later: Text)
    requires |events| > 0
    ensures Bytes(events) + later
      == Bytes(events[..|events| - 1]) + (Brought(events[|events| - 1]) + later)
  {
  }

  ghost predicate Progresses(c: Client, d: Client, later: Text, ms: seq<Message>) {
    exists n: nat :: Progress(c, d, later, ms, n)
  }

  lemma {:induction false} RunShows(c: Client, events: seq<Event>, later: Text, ms: seq<Message>)
    requires c.state != Closed && Chatting(c.tcp) && AllSendable(ms)
    requires c.tcp.buffer + (Bytes(events) + later) == Transcript(ms)
    ensures Progresses(c, Run(c, events), later, ms)
    decreases |events|
  {
    if |events| == 0 {
      assert Bytes(events) + later == later;
      ProgressNone(c, Run(c, events), later, ms);
    } else {
      var init, e := events[..|events| - 1], events[|events| - 1];
      assert Bytes(init) + (Brought(e) + later) == Bytes(events) + later by { BytesLast(events, later); }
      RunShows(c, init, Brought(e) + later, ms);
      ProgressStep(c, Run(c, init), e, later, ms);
    }
  }

  lemma ProgressStep(c: Client, d: Client, e: Event, later: Text, ms: seq<Message>)
    requires AllSendable(ms) && Progresses(c, d, Brought(e) + later, ms)
    ensures Progresses(c, Tock(d, e), later, ms)
  {
    var before: nat :| Progress(c, d, Brought(e) + later, ms, before);
    var more := TockShows(d, e, later, ms[before..]);
    ProgressMore(c, d, Tock(d, e), Brought(e) + later, later, ms, before, more);
  }

  lemma ProgressNone(c: Client, d: Client, later: Text, ms: seq<Message>)
    requires d == c && Chatting(c.tcp) && c.tcp.buffer + later == Transcript(ms)
    ensures Progress(c, d, later, ms, 0)
  {
    ShowingNone(c.tcp, later, ms);
  }

  lemma ProgressMore(c: Client, d: Client, f: Client, rest: Text, later: Text, ms: seq<Message>, a: nat, b: nat)
    requires Progress(c, d, rest, ms, a) && Advances(d, f, later, ms[a..], b)
    ensures Progress(c, f, later, ms, a + b)
  {
    if d.state != Closed {
      ShownMore(c.tcp, d.tcp, f.tcp, ms, a, b);
    }
  }

  /** The screen has gained the first `n` messages, and the others are the frames in the buffer. */
  predicate Arrived(c: Client, d: Client, ms: seq<Message>, n: nat) {
    && n <= |ms| && Peers(d.tcp.shown) == Peers(c.tcp.shown) + Screen(ms[..n])
    && (d.state != Closed ==> d.tcp.buffer == Transcript(ms[n..]) && |Frames(d.tcp.buffer)| == |ms| - n)
  }

  lemma {:induction false} TranscriptFrames(ms: seq<Message>)
    requires AllSendable(ms)
    ensures |Frames(Transcript(ms))| == |ms| && (Whole(Transcript(ms)) <==> |ms| == 0)
  {
    if |ms| > 0 {
      TranscriptFront(ms);
      TranscriptFrames(ms[1..]);
    }
  }

  /** From any point of any run where the client is logged in, if the bytes still unread are the
      messages other clients with space-free names formed, then however they are cut into chunks,
      and whatever the user types and waits for meanwhile, the screen shows the first so many of
      them, whole and in order, and the others are the frames left in the buffer. None is left
      behind unless a reply is awaited, or frames were left over to begin with. */
  lemma MessagesArrive(max: nat, before: seq<Event>, events: seq<Event>, ms: seq<Message>) returns (n: nat)
    requires var c := Run(Launch(max), before);
      && c.state != Closed && c.tcp.fsm.current == Open
      && AllSendable(ms) && c.tcp.buffer + Bytes(events) == Transcript(ms)
    ensures var c := Run(Launch(max), before);
      var d := Run(c, events);
      && Arrived(c, d, ms, n)
      && (Whole(c.tcp.buffer) && !d.tcp.waitReply && d.state != Closed ==> n == |ms|)
  {
    var c := Run(Launch(max), before);
    var d := Run(c, events);
    RunLive(max, before);
    assert Bytes(events) + [] == Bytes(events);
    RunShows(c, events, [], ms);
    n :| Progress(c, d, [], ms, n);
    assert d.tcp.buffer + [] == d.tcp.buffer;
    TranscriptFrames(ms[n..]);
  }

  // ----------------------------------------------------------------- the session while live

  /** As long as the loop runs, the machine is in one of its three working states. */
  predicate Working(f: Fsm) {
    && Sound(f) && f.current in {Start, Auth, Open} && f.previous !in {Error, End}
    && ListFits(f) && (f.previous == Open ==> f.current == Open)
  }

  lemma StepWorking(f: Fsm, a: Action)
    requires Working(f) && Submitted(a)
    ensures forall now :: Proper(Verdict(now, a, Step(f, a).1))
    ensures Step(f, a).1 != Fail && a !in {ErrorServer, ByeServer} ==> Working(Step(f, a).0)
  {
    StepSound(f, a);
  }

  function Kinds(sent: seq<Sent>): seq<Kind> {
    Map((o: Sent) => o.kind, sent)
  }

  ghost predicate Orderly(t: Tcp) {
    Lawful(t.fsm, Kinds(t.sent), t.verdicts)
  }

  lemma ConsultOrderly(t: Tcp, a: Action)
    requires Orderly(t) && Working(t.fsm) && Submitted(a)
    ensures var (v, r) := Consult(t, a);
      && Orderly(v) && v.sent == t.sent
      && (r == Allow && a in {JoinUser, MessageUser} ==> LoggedIn(v.verdicts, |t.sent|))
      && (GetSource(a) == User ==> r in {Allow, Warn})
      && (GetSource(a) == Server ==> r in {Allow, Fail})
      && (r != Fail && a !in {ErrorServer, ByeServer} ==> Working(v.fsm))
  {
    StepWorking(t.fsm, a);
    var v := Verdict(|t.sent|, a, Step(t.fsm, a).1);
    assert Proper(v);
    ConsultLawful(t.fsm, Kinds(t.sent), t.verdicts, a);
  }

  lemma SayOrderly(t: Tcp, kind: Kind, text: Text)
    requires Orderly(t) && (kind in {JoinChannel, Chat} ==> LoggedIn(t.verdicts, |t.sent|))
    ensures Orderly(Say(t, kind, text))
  {
    SayLawful(t.fsm, Kinds(t.sent), t.verdicts, kind);
    assert Kinds(Say(t, kind, text).sent) == Kinds(t.sent) + [kind];
  }

  lemma AbortOrderly(t: Tcp, name: Text, text: Text)
    requires Orderly(t)
    ensures Orderly(Abort(t, name, text).0) && Orderly(Part(t).0)
  {
    SayOrderly(t, Failure, ErrLine(name, text) + CRLF);
    SayOrderly(Say(t, Failure, ErrLine(name, text) + CRLF), Farewell, BYE_LINE + CRLF);
    SayOrderly(t, Farewell, BYE_LINE + CRLF);
  }

  /** An answer that leaves the verdicts in order and, unless it closes, the session working. */
  ghost predicate Sane(a: Answer) {
    Orderly(a.0) && (a.1 != Closed ==> Working(a.0.fsm))
  }

  lemma ChatSane(t: Tcp, frame: Text)
    requires Orderly(t) && Working(t.fsm)
    ensures Sane(OnChat(t, frame)) && OnChat(t, frame).1 != Indeterminate
  {
    ConsultOrderly(t, MessageServer);
    var v := Consult(t, MessageServer).0;
    AbortOrderly(v, [], BAD_MSG_STATE);
    AbortOrderly(v, ReadMsg(t.name, frame).name, BAD_MSG_FORM);
  }

  lemma ReplySane(t: Tcp, positive: bool, frame: Text)
    requires Orderly(t) && Working(t.fsm)
    ensures Sane(OnReply(t, positive, frame))
    ensures OnReply(t, positive, frame).1 == Indeterminate
      <==> Step(t.fsm, if positive then ReplyServer else NReplyServer).1 == Allow && ReadReply(frame) == Broken
  {
    var a := if positive then ReplyServer else NReplyServer;
    ConsultOrderly(t, a);
    AbortOrderly(Consult(t, a).0, t.name, BAD_REPLY_FORM);
    AbortOrderly(Consult(t, a).0, t.name, BAD_REPLY_STATE);
  }

  lemma ErrorSane(t: Tcp, frame: Text)
    requires Orderly(t) && Working(t.fsm)
    ensures Sane(OnError(t, frame)) && OnError(t, frame).1 == Closed
  {
    ConsultOrderly(t, ErrorServer);
    var v := Consult(t, ErrorServer).0;
    var reading := ReadErr(frame);
    AbortOrderly(v, t.name, BAD_ERR_FORM);
    AbortOrderly(v, t.name, BAD_ERR_STATE);
    AbortOrderly(Show(v, FromPeerError(reading.name, reading.text)), t.name, BAD_ERR_STATE);
  }

  lemma ByeSane(t: Tcp)
    requires Orderly(t) && Working(t.fsm)
    ensures Sane(OnBye(t)) && OnBye(t).1 == Closed
  {
    ConsultOrderly(t, ByeServer);
    AbortOrderly(Consult(t, ByeServer).0, t.name, BAD_BYE_STATE);
  }

  /** A frame the handler has no answer to: a REPLY that is neither OK nor NOK, or one it accepts
      that stops after IS. */
  predicate Unanswerable(t: Tcp, frame: Text) {
    var parts := Split(frame, SP);
    var status := if |parts| > 1 then ToUpper(parts[1]) else [];
    && ToUpper(parts[0]) == "REPLY"
    && (status !in {"OK", "NOK"}
        || (Step(t.fsm, if status == "OK" then ReplyServer else NReplyServer).1 == Allow
            && |parts| == 3 && ToUpper(parts[2]) == "IS"))
  }

  lemma ReceivedSane(t: Tcp, frame: Text)
    requires Orderly(t) && Working(t.fsm)
    ensures Sane(Received(t, frame))
  {
    var command := ToUpper(Split(frame, SP)[0]);
    if command == "MSG" {
      ChatSane(t, frame);
    } else if command == "REPLY" {
      ReplySane(t, true, frame);
      ReplySane(t, false, frame);
    } else if command == "ERR" {
      ErrorSane(t, frame);
    } else if command == "BYE" {
      ByeSane(t);
    } else {
      AbortOrderly(Show(t, Internal(BAD_COMMAND)), t.name, BAD_COMMAND);
    }
  }

  lemma ReceivedUnanswered(t: Tcp, frame: Text)
    requires Orderly(t) && Working(t.fsm)
    ensures Received(t, frame).1 == Indeterminate <==> Unanswerable(t, frame)
  {
    var command := ToUpper(Split(frame, SP)[0]);
    if command == "MSG" {
      ChatSane(t, frame);
    } else if command == "REPLY" {
      ReplySane(t, true, frame);
      ReplySane(t, false, frame);
    } else if command == "ERR" {
      ErrorSane(t, frame);
    } else if command == "BYE" {
      ByeSane(t);
    }
  }

  lemma {:induction false} DrainSane(t: Tcp, strays: Strays, k: nat)
    requires Orderly(t) && Working(t.fsm)
    ensures Sane(Drain(t, strays, k))
    decreases |t.buffer|
  {
    if HasFrame(t.buffer) {
      ReceivedSane(Taken(t), Head(t.buffer));
      var (v, r) := Received(Taken(t), Head(t.buffer));
      if Settle(r, strays(k)) == ReadyForInput {
        DrainSane(v, strays, k + 1);
      }
    }
  }

  /** While `t`'s buffer is drained, `frame` is handed to the handler in state `s`. */
  predicate HandsOn(t: Tcp, strays: Strays, k: nat, s: Tcp, frame: Text)
    decreases |t.buffer|
  {
    && HasFrame(t.buffer)
    && ((s == Taken(t) && frame == Head(t.buffer))
        || var (v, r) := Received(Taken(t), Head(t.buffer));
           Settle(r, strays(k)) == ReadyForInput && HandsOn(v, strays, k + 1, s, frame))
  }

  /** Every frame of a chunk, not only the first, meets a working session. */
  lemma {:induction false} HandsOnSane(t: Tcp, strays: Strays, k: nat, s: Tcp, frame: Text)
    requires Orderly(t) && Working(t.fsm) && HandsOn(t, strays, k, s, frame)
    ensures Orderly(s) && Working(s.fsm)
    decreases |t.buffer|
  {
    if !(s == Taken(t) && frame == Head(t.buffer)) {
      ReceivedSane(Taken(t), Head(t.buffer));
      HandsOnSane(Received(Taken(t), Head(t.buffer)).0, strays, k + 1, s, frame);
    }
  }

  /** After some live run a chunk arrives out of which `frame` is handed to the handler in `s`. */
  predicate Meets(max: nat, before: seq<Event>, bytes: Text, strays: Strays, s: Tcp, frame: Text) {
    var c := Run(Launch(max), before);
    c.state != Closed && HandsOn(Buffered(c.tcp, bytes), strays, 0, s, frame)
  }

  lemma MeetsSane(max: nat, before: seq<Event>, bytes: Text, strays: Strays, s: Tcp, frame: Text)
    requires Meets(max, before, bytes, strays, s, frame)
    ensures Orderly(s) && Working(s.fsm)
  {
    RunLive(max, before);
    HandsOnSane(Buffered(Run(Launch(max), before).tcp, bytes), strays, 0, s, frame);
  }

  lemma AuthSane(t: Tcp, argument: Text)
    requires Orderly(t) && Working(t.fsm)
    ensures Sane(OnAuth(t, argument)) && OnAuth(t, argument).1 in {WaitingForReply, ReadyForInput}
  {
    ConsultOrderly(t, AuthorizeUser);
    var parts := Split(argument, SP);
    if ValidCredentials(parts) {
      SayOrderly(Consult(t, AuthorizeUser).0, Authorize, AuthLine(parts[0], parts[2], parts[1]) + CRLF);
    }
  }

  lemma JoinSane(t: Tcp, argument: Text)
    requires Orderly(t) && Working(t.fsm)
    ensures Sane(OnJoin(t, argument)) && OnJoin(t, argument).1 in {WaitingForReply, ReadyForInput}
  {
    ConsultOrderly(t, JoinUser);
    if Consult(t, JoinUser).1 == Allow {
      SayOrderly(Consult(t, JoinUser).0, JoinChannel, JoinLine(argument, t.name) + CRLF);
    }
  }

  lemma TextSane(t: Tcp, line: Text)
    requires Orderly(t) && Working(t.fsm)
    ensures Sane(OnText(t, line)) && OnText(t, line).1 == ReadyForInput
  {
    ConsultOrderly(t, MessageUser);
    if Consult(t, MessageUser).1 == Allow {
      SayOrderly(Consult(t, MessageUser).0, Chat, MsgLine(t.name, line) + CRLF);
    }
  }

  predicate Renames(line: Text) {
    line != "/exit" && ToUpper(Command(line)) == "/RENAME" && ValidName(Argument(line))
  }

  lemma UserSane(t: Tcp, line: Text)
    requires Orderly(t) && Working(t.fsm)
    ensures Sane(UserStep(t, line))
    ensures UserStep(t, line).1 == Indeterminate <==> Renames(line)
  {
    var command := ToUpper(Command(line));
    if line == "/exit" {
      AbortOrderly(t, [], []);
    } else if command == "/AUTH" {
      AuthSane(t, Argument(line));
    } else if command == "/JOIN" {
      JoinSane(t, Argument(line));
    } else if command != "/RENAME" && command != "/HELP" {
      TextSane(t, line);
    }
  }

  ghost predicate Live(c: Client) {
    Orderly(c.tcp) && (c.state != Closed ==> Working(c.tcp.fsm))
  }

  lemma TockLive(c: Client, e: Event)
    requires Live(c)
    ensures Live(Tock(c, e))
  {
    if c.state != Closed {
      match e {
        case Chunk(bytes, strays) => DrainSane(Buffered(c.tcp, bytes), strays, 0);
        case FromUser(line, _) => UserSane(c.tcp, line);
        case Interrupt => UserSane(c.tcp, "/exit");
        case EndOfInput => UserSane(c.tcp, "/exit");
        case _ =>
      }
    }
  }

  lemma {:induction false} RunLive(max: nat, events: seq<Event>)
    ensures Live(Run(Launch(max), events))
  {
    if |events| > 0 {
      var init := events[..|events| - 1];
      RunLive(max, init);
      TockLive(Run(Launch(max), init), events[|events| - 1]);
    }
  }

  /** A JOIN or MSG line is sent only after an authorization was accepted and, later, a reply. */
  lemma NoChatBeforeLogin(max: nat, events: seq<Event>, k: nat)
    requires var sent := Run(Launch(max), events).tcp.sent;
      k < |sent| && sent[k].kind in {JoinChannel, Chat}
    ensures LoggedIn(Run(Launch(max), events).tcp.verdicts, k)
  {
    RunLive(max, events);
  }

  /** While the loop is live the machine stays in START, AUTH and OPEN, and it never answers a
      handler in a way the handler has no branch for. */
  lemma SessionStaysWorking(max: nat, events: seq<Event>, k: nat)
    ensures var c := Run(Launch(max), events);
      && (c.state != Closed ==> c.tcp.fsm.current in {Start, Auth, Open})
      && (k < |c.tcp.verdicts| ==> Proper(c.tcp.verdicts[k]))
  {
    RunLive(max, events);
  }

  /** Control runs off the end for exactly these: a successful rename ... */
  lemma OnlyRenameRunsOff(max: nat, events: seq<Event>, line: Text)
    requires Run(Launch(max), events).state != Closed
    ensures UserStep(Run(Launch(max), events).tcp, line).1 == Indeterminate <==> Renames(line)
  {
    RunLive(max, events);
    UserSane(Run(Launch(max), events).tcp, line);
  }

  /** ... and, of all the frames of all the chunks, an unanswerable REPLY. */
  lemma OnlyTheseFramesRunOff(max: nat, before: seq<Event>, bytes: Text, strays: Strays, s: Tcp, frame: Text)
    requires Meets(max, before, bytes, strays, s, frame)
    ensures Received(s, frame).1 == Indeterminate <==> Unanswerable(s, frame)
  {
    MeetsSane(max, before, bytes, strays, s, frame);
    ReceivedUnanswered(s, frame);
  }
}
