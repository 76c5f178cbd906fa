/** Every event of every run of the TCP client does what it should: chunks, lines and the user
    leaving; in whose name the client speaks, and what is refused. */
module TcpRuns {
  import opened Octets
  import opened Session
  import opened SessionTable
  import opened Common
  import opened CommandLines
  import opened Framing
  import opened TcpMachine
  import opened TcpSession
  import opened TcpEffects

  // ------------------------------------------------------------------------------ every event

  /** A line is read exactly when the loop listens and it is not empty, and then it does what it
      should; the loop goes on with the answer, or with anything after a rename. */
  lemma TypedLinesDoRight(max: nat, before: seq<Event>, line: Text, stray: ClientState)
    ensures var c := Run(Launch(max), before);
      var n := Tock(c, FromUser(line, stray));
      if Listening(c.state) && |line| > 0 then
        && LineDoesRight(c.tcp, line, (n.tcp, UserStep(c.tcp, line).1))
        && n == c.(tcp := n.tcp, state := n.state)
        && n.state == if UserStep(c.tcp, line).1 == Indeterminate then stray else UserStep(c.tcp, line).1
      else n == c
  {
    var c := Run(Launch(max), before);
    RunLive(max, before);
    if Listening(c.state) && |line| > 0 {
      AnyLine(c.tcp, line);
    }
  }

  /** The first interrupt, and the end of input while the loop listens, send one BYE line and close;
      when the server hangs up the loop closes without a word; otherwise nothing happens. */
  lemma DeparturesDoRight(max: nat, before: seq<Event>, e: Event)
    requires e.Interrupt? || e.EndOfInput? || e.Hangup?
    ensures var c := Run(Launch(max), before);
      var n := Tock(c, e);
      if c.state == Closed || (e.Interrupt? && !c.armed) || (e.EndOfInput? && !Listening(c.state)) then n == c
      else if e.Hangup? then n.tcp == c.tcp && n.state == Closed
      else SaysBye(c.tcp, n.tcp) && n.tcp == c.tcp.(sent := n.tcp.sent) && n.state == Closed
  {
    PartSays(Run(Launch(max), before).tcp);
  }

  /** The loop's budget: a chunk or hang-up restores it unless a confirmation is waited for, which
      only an undefined answer can bring about; then timeouts use it up and close, sending nothing. */
  lemma BudgetDoesRight(max: nat, before: seq<Event>, e: Event)
    ensures var c := Run(Launch(max), before);
      var n := Tock(c, e);
      && (e.Timeout? ==>
            && n.tcp == c.tcp
            && n.state == (if c.state == WaitingForConfirmation && c.retry == 0 then Closed else c.state)
            && n.retry == if c.state == WaitingForConfirmation && c.retry > 0 then c.retry - 1 else c.retry)
      && (e.Chunk? && c.state != Closed && |e.bytes| > 0 ==>
            n.retry == if n.state == WaitingForConfirmation then c.retry else max)
      && (!e.Timeout? && !e.Chunk? && !e.Hangup? ==> n.retry == c.retry)
      && n.armed == (c.armed && !(e.Interrupt? && c.state != Closed))
  {
    RunMax(max, before);
  }

  lemma {:induction false} RunMax(max: nat, events: seq<Event>)
    ensures Run(Launch(max), events).max == max
  {
    if |events| > 0 {
      RunMax(max, events[..|events| - 1]);
    }
  }

  /** An answer other than READY_FOR_INPUT is the last word about a chunk: the frame it was given to
      is the last one handed on, and the loop goes on with it. */
  lemma {:induction false} LastWord(t: Tcp, strays: Strays, k: nat, s: Tcp, frame: Text)
    requires HandsOn(t, strays, k, s, frame)
    requires Received(s, frame).1 !in {ReadyForInput, Indeterminate}
    ensures Drain(t, strays, k) == Received(s, frame)
    decreases |t.buffer|
  {
    if !(s == Taken(t) && frame == Head(t.buffer)) {
      LastWord(Received(Taken(t), Head(t.buffer)).0, strays, k + 1, s, frame);
    }
  }

  /** So, of the frames of a chunk, at most the last is answered otherwise, and that is how the
      chunk is answered. */
  lemma ChunkEndsWithItsAnswer(max: nat, before: seq<Event>, bytes: Text, strays: Strays, s: Tcp, frame: Text)
    requires Meets(max, before, bytes, strays, s, frame) && |bytes| > 0
    requires Received(s, frame).1 !in {ReadyForInput, Indeterminate}
    ensures var n := Tock(Run(Launch(max), before), Chunk(bytes, strays));
      (n.tcp, n.state) == Received(s, frame)
  {
    LastWord(Buffered(Run(Launch(max), before).tcp, bytes), strays, 0, s, frame);
  }

  // ---------------------------------------------------------------------------- whose name

  predicate Authorizes(c: Client, e: Event) {
    && e.FromUser? && Listening(c.state)
    && AuthorizeLine(e.line) && Step(c.tcp.fsm, AuthorizeUser).1 == Allow
  }

  predicate Renaming(c: Client, e: Event) {
    e.FromUser? && Listening(c.state) && RenameLine(e.line)
  }

  /** The display name after some events: the latest that was accepted. */
  function NameAfter(max: nat, events: seq<Event>): Text {
    if |events| == 0 then []
    else
      var init, e := events[..|events| - 1], events[|events| - 1];
      if Authorizes(Run(Launch(max), init), e) then Split(Argument(e.line), SP)[2]
      else if Renaming(Run(Launch(max), init), e) then Argument(e.line)
      else NameAfter(max, init)
  }

  lemma {:induction false} DrainKeepsName(t: Tcp, strays: Strays, k: nat)
    requires Orderly(t) && Working(t.fsm)
    ensures Drain(t, strays, k).0.name == t.name
    decreases |t.buffer|
  {
    if HasFrame(t.buffer) {
      var (v, r) := Received(Taken(t), Head(t.buffer));
      AnyFrame(Taken(t), Head(t.buffer));
      ReceivedSane(Taken(t), Head(t.buffer));
      if Settle(r, strays(k)) == ReadyForInput {
        DrainKeepsName(v, strays, k + 1);
      }
    }
  }

  lemma TockNames(c: Client, e: Event)
    requires Live(c)
    ensures Tock(c, e).tcp.name
      == if Authorizes(c, e) then Split(Argument(e.line), SP)[2]
         else if Renaming(c, e) then Argument(e.line) else c.tcp.name
  {
    if c.state != Closed {
      match e {
        case Chunk(bytes, strays) => DrainKeepsName(Buffered(c.tcp, bytes), strays, 0);
        case FromUser(line, _) => AnyLine(c.tcp, line);
        case _ =>
      }
    }
  }

  /** In every run the name in use is the one the latest accepted `/auth` or `/rename` gave. */
  lemma {:induction false} NameIsTheLatest(max: nat, events: seq<Event>)
    ensures Run(Launch(max), events).tcp.name == NameAfter(max, events)
  {
    if |events| > 0 {
      NameIsTheLatest(max, events[..|events| - 1]);
      RunLive(max, events[..|events| - 1]);
      TockNames(Run(Launch(max), events[..|events| - 1]), events[|events| - 1]);
    }
  }

  // -------------------------------------------------------------- what is granted, what refused

  /** As over UDP: a chat or a JOIN is granted in OPEN and nowhere else; an AUTH in START, and in
      AUTH unless a reply is being expected. */
  lemma GrantedExactly(max: nat, before: seq<Event>)
    requires Run(Launch(max), before).state != Closed
    ensures var f := Run(Launch(max), before).tcp.fsm;
      && (Step(f, MessageUser).1 == Allow <==> f.current == Open)
      && (Step(f, JoinUser).1 == Allow <==> f.current == Open)
      && (Step(f, AuthorizeUser).1 == Allow <==>
            f.current == Start || (f.current == Auth && ReplyServer !in f.expected))
  {
    RunLive(max, before);
    UserGranted(Run(Launch(max), before).tcp.fsm);
  }

  /** One more line has left, in these words. */
  predicate Says(t: Tcp, v: Tcp, kind: Kind, words: seq<Text>)
    requires |words| > 0
  {
    |v.sent| == |t.sent| + 1 && t.sent <= v.sent && Speaks(v.sent[|t.sent|], kind, words)
  }

  /** What is typed in OPEN leaves as a MSG that says exactly that, in the latest name. */
  lemma ChatSaysWhatWasTyped(max: nat, before: seq<Event>, line: Text, stray: ClientState)
    requires Listening(Run(Launch(max), before).state) && ChatLine(line)
    requires Run(Launch(max), before).tcp.fsm.current == Open
    ensures var c := Run(Launch(max), before);
      Says(c.tcp, Tock(c, FromUser(line, stray)).tcp, Chat, ["MSG", "FROM", NameAfter(max, before), "IS", line])
  {
    TypedLinesDoRight(max, before, line, stray);
    GrantedExactly(max, before);
    NameIsTheLatest(max, before);
    ChatIsNoCommand(line);
  }

  /** `/join` in OPEN leaves as a JOIN of that channel, in the latest name. */
  lemma JoinSaysWhatWasTyped(max: nat, before: seq<Event>, line: Text, stray: ClientState)
    requires Listening(Run(Launch(max), before).state) && ChannelLine(line)
    requires Run(Launch(max), before).tcp.fsm.current == Open
    ensures var c := Run(Launch(max), before);
      Says(c.tcp, Tock(c, FromUser(line, stray)).tcp, JoinChannel,
           ["JOIN", Argument(line), "AS", NameAfter(max, before)])
  {
    assert |line| > 0;
    TypedLinesDoRight(max, before, line, stray);
    GrantedExactly(max, before);
    NameIsTheLatest(max, before);
  }

  /** A request in good form outside the states that grant it: nothing is sent, the name stays, and
      the user is told why. */
  lemma RefusedExactly(max: nat, before: seq<Event>, line: Text, stray: ClientState)
    requires Listening(Run(Launch(max), before).state)
    requires AuthorizeLine(line) || ChannelLine(line) || ChatLine(line)
    requires Step(Run(Launch(max), before).tcp.fsm, ActionOf(WishOf([], line).kind)).1 != Allow
    ensures var c := Run(Launch(max), before);
      var n := Tock(c, FromUser(line, stray));
      && SaysNothing(c.tcp, n.tcp) && n.tcp.name == c.tcp.name && n.state == ReadyForInput
      && n.tcp.shown == c.tcp.shown
         + [Internal(if AuthorizeLine(line) then NO_AUTH else if ChannelLine(line) then NO_JOIN else NO_MSG)]
  {
    assert |line| > 0;
    if ChatLine(line) {
      ChatIsNoCommand(line);
    }
    TypedLinesDoRight(max, before, line, stray);
  }
}
