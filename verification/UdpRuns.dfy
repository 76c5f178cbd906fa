/** Every event of every run of the UDP client does what it should: the datagrams, the lines, the
    clock and the user leaving; what is on the wire, in whose name, and what is refused. */
module UdpRuns {
  import opened Octets
  import opened UdpRecords
  import opened Session
  import opened SessionTable
  import opened Common
  import opened CommandLines
  import opened UdpMachine
  import opened UdpDelivery
  import opened UdpSession
  import opened UdpEffects
  import opened UdpLines

  // -------------------------------------------------------- what the client says can be said

  predicate Mannered(u: Udp) {
    Clean(u.name) && Free(u.link.errorText, NUL)
  }

  ghost predicate Fit(c: Client) {
    Inv(c) && Orderly(c.udp) && Mannered(c.udp)
  }

  lemma ObjectedMannered(u: Udp, v: Udp, text: Text)
    requires Mannered(u) && Objected(u, v, text) && Free(text, NUL)
    ensures Free(v.link.errorText, NUL)
  {
  }

  lemma DatagramMannered(c: Client, d: Datagram)
    requires Fit(c) && c.state != Closed
    ensures Mannered(Tock(c, FromServer(d)).udp)
  {
    DatagramIsTaken(c, d);
    if d[0] == CONFIRM {
      ConfirmDoesRight(c.udp, d);
    } else {
      ServerDoesRight(c.udp, d);
      FaultsAreClean(c.udp, d);
    }
  }

  lemma AuthorizedName(line: Text)
    requires AuthorizeLine(line)
    ensures Clean(Split(Argument(line), SP)[2])
  {
  }

  lemma LineMannered(u: Udp, line: Text)
    requires Held(u.fsm) && Mannered(u)
    ensures Mannered(UserStep(u, line).0)
  {
    LinesDoRight(u, line);
    if AuthorizeLine(line) {
      AuthorizedName(line);
    }
  }

  lemma TockMannered(c: Client, e: Event)
    requires Fit(c)
    ensures Mannered(Tock(c, e).udp)
  {
    if c.state != Closed {
      match e {
        case FromServer(d) => DatagramMannered(c, d);
        case FromUser(line, _) => LineMannered(c.udp, line);
        case Timeout =>
        case _ => LineMannered(c.udp, "/exit");
      }
    }
  }

  lemma {:induction false} RunFit(max: nat, events: seq<Event>)
    ensures Fit(Run(Launch(max), events))
  {
    RunKeeps(max, events);
    RunOrderly(max, events);
    if |events| > 0 {
      RunFit(max, events[..|events| - 1]);
      TockMannered(Run(Launch(max), events[..|events| - 1]), events[|events| - 1]);
    }
  }

  // ------------------------------------------------------------------------------ every event

  /** A datagram other than a CONFIRM, at any point of any live run: it is confirmed, recorded,
      shown, objected to or answered with BYE exactly when it should be. */
  lemma DatagramsDoRight(max: nat, before: seq<Event>, d: Datagram)
    requires Run(Launch(max), before).state != Closed && d[0] != CONFIRM
    ensures var c := Run(Launch(max), before);
      var n := Tock(c, FromServer(d));
      DoesRight(c.udp, d, (n.udp, n.state))
  {
    RunFit(max, before);
    DatagramIsTaken(Run(Launch(max), before), d);
    ServerDoesRight(Run(Launch(max), before).udp, d);
  }

  /** And a CONFIRM. */
  lemma ConfirmsDoRight(max: nat, before: seq<Event>, d: Datagram)
    requires Run(Launch(max), before).state != Closed && d[0] == CONFIRM
    ensures var c := Run(Launch(max), before);
      var n := Tock(c, FromServer(d));
      ConfirmedRight(c.udp, d, (n.udp, n.state))
  {
    RunFit(max, before);
    DatagramIsTaken(Run(Launch(max), before), d);
    ConfirmDoesRight(Run(Launch(max), before).udp, d);
  }

  /** A line is read exactly when the loop listens and it is not empty, and then it does what it
      should; the loop goes on with the answer, or with anything after a rename. */
  lemma TypedLinesDoRight(max: nat, before: seq<Event>, line: Text, stray: ClientState)
    ensures var c := Run(Launch(max), before);
      var n := Tock(c, FromUser(line, stray));
      if Listening(c.state) && |line| > 0 then
        && LineDoesRight(c.udp, line, (n.udp, UserStep(c.udp, line).1))
        && n == c.(udp := n.udp, state := n.state)
        && n.state == if UserStep(c.udp, line).1 == Indeterminate then stray else UserStep(c.udp, line).1
      else n == c
  {
    var c := Run(Launch(max), before);
    RunFit(max, before);
    if Listening(c.state) && |line| > 0 {
      LineIsTaken(c, line, stray);
      LinesDoRight(c.udp, line);
    }
  }

  /** The clock: while a confirmation is awaited and retries are left, the latest original, of
      whatever kind, is sent again and one retry is used up; with none left the loop closes; and
      at any other time nothing happens. */
  predicate TimeoutDoesRight(c: Client, n: Client) {
    if c.state == WaitingForConfirmation && c.retry > 0 then
      && n == c.(udp := c.udp.(link := n.udp.link), retry := c.retry - 1)
      && n.udp.link == c.udp.link.(ticks := n.udp.link.ticks)
      && n.udp.link.ticks == c.udp.link.ticks + [Again(|c.udp.link.sent|, Latest(c.udp.link.sent))]
    else n == c.(state := if c.state == WaitingForConfirmation then Closed else c.state)
  }

  lemma TimeoutsDoRight(max: nat, before: seq<Event>)
    ensures TimeoutDoesRight(Run(Launch(max), before), Tock(Run(Launch(max), before), Timeout))
  {
    RunFit(max, before);
  }

  /** The first interrupt, and the end of input while the loop listens, say BYE and wait for its
      CONFIRM; otherwise nothing happens. */
  lemma DeparturesDoRight(max: nat, before: seq<Event>, e: Event)
    requires e.Interrupt? || e.EndOfInput?
    ensures var c := Run(Launch(max), before);
      var n := Tock(c, e);
      if c.state != Closed && (if e.Interrupt? then c.armed else Listening(c.state)) then
        && Leaving(c.udp, n.udp) && n.state == WaitingForConfirmation
        && n.retry == c.retry && n.armed == (c.armed && !e.Interrupt?)
      else n == c
  {
    RunFit(max, before);
    LinesDoRight(Run(Launch(max), before).udp, "/exit");
  }

  /** A datagram restores the retries exactly when the loop no longer waits for a confirmation. */
  lemma DatagramsRestoreRetries(max: nat, before: seq<Event>, d: Datagram)
    requires Run(Launch(max), before).state != Closed
    ensures var c := Run(Launch(max), before);
      var n := Tock(c, FromServer(d));
      n.retry == (if n.state == WaitingForConfirmation then c.retry else max) && n.armed == c.armed
  {
    RunKeeps(max, before);
  }

  // ---------------------------------------------------------------------------- whose name

  /** The line is acted on, and it is a good `/auth` the session lets through. */
  predicate Authorizes(c: Client, e: Event) {
    && e.FromUser? && Listening(c.state) && !c.udp.link.errorPending
    && AuthorizeLine(e.line) && Step(c.udp.fsm, AuthorizeUser).1 == Allow
  }

  predicate Renames(c: Client, e: Event) {
    e.FromUser? && Listening(c.state) && !c.udp.link.errorPending && RenameLine(e.line)
  }

  /** The display name after some events: the latest that was accepted. */
  function NameAfter(max: nat, events: seq<Event>): Text {
    if |events| == 0 then []
    else
      var init, e := events[..|events| - 1], events[|events| - 1];
      if Authorizes(Run(Launch(max), init), e) then Split(Argument(e.line), SP)[2]
      else if Renames(Run(Launch(max), init), e) then Argument(e.line)
      else NameAfter(max, init)
  }

  /** A line that is read gives a name only as these two do. */
  lemma ReadLineNames(u: Udp, line: Text)
    requires Held(u.fsm) && Mannered(u)
    ensures UserStep(u, line).0.name
      == if !u.link.errorPending && AuthorizeLine(line) && Step(u.fsm, AuthorizeUser).1 == Allow then
           Split(Argument(line), SP)[2]
         else if !u.link.errorPending && RenameLine(line) then Argument(line) else u.name
  {
    LinesDoRight(u, line);
  }

  lemma LineNames(c: Client, e: Event)
    requires Fit(c) && e.FromUser?
    ensures Tock(c, e).udp.name
      == if Authorizes(c, e) then Split(Argument(e.line), SP)[2]
         else if Renames(c, e) then Argument(e.line) else c.udp.name
  {
    if Listening(c.state) && |e.line| > 0 {
      LineIsTaken(c, e.line, e.stray);
      ReadLineNames(c.udp, e.line);
    }
  }

  lemma OthersNameNothing(c: Client, e: Event)
    requires Fit(c) && !e.FromUser?
    ensures Tock(c, e).udp.name == c.udp.name
  {
    if c.state != Closed {
      match e {
        case FromServer(d) =>
          DatagramIsTaken(c, d);
          if d[0] == CONFIRM {
            ConfirmDoesRight(c.udp, d);
          } else {
            ServerDoesRight(c.udp, d);
          }
        case Timeout =>
        case _ => LinesDoRight(c.udp, "/exit");
      }
    }
  }

  /** In every run the name in use is the one the latest accepted `/auth` or `/rename` gave, and it
      can be part of a record. */
  lemma {:induction false} NameIsTheLatest(max: nat, events: seq<Event>)
    ensures Run(Launch(max), events).udp.name == NameAfter(max, events) && Clean(NameAfter(max, events))
  {
    RunFit(max, events);
    if |events| > 0 {
      var init, e := events[..|events| - 1], events[|events| - 1];
      NameIsTheLatest(max, init);
      RunFit(max, init);
      if e.FromUser? {
        LineNames(Run(Launch(max), init), e);
      } else {
        OthersNameNothing(Run(Launch(max), init), e);
      }
    }
  }

  // -------------------------------------------------------------- what is granted, what refused

  /** A chat or a JOIN is granted in OPEN and nowhere else; an AUTH in START, and in AUTH unless a
      reply is being expected. */
  lemma GrantedExactly(max: nat, before: seq<Event>)
    ensures var f := Run(Launch(max), before).udp.fsm;
      && (Step(f, MessageUser).1 == Allow <==> f.current == Open)
      && (Step(f, JoinUser).1 == Allow <==> f.current == Open)
      && (Step(f, AuthorizeUser).1 == Allow <==>
            f.current == Start || (f.current == Auth && ReplyServer !in f.expected))
  {
    RunOrderly(max, before);
    UserGranted(Run(Launch(max), before).udp.fsm);
  }

  /** The loop listens and no error waits to be reported. */
  predicate Ready(c: Client) {
    Listening(c.state) && !c.udp.link.errorPending
  }

  /** What is typed in OPEN leaves as a MSG that says exactly that, in the latest name. */
  lemma ChatSaysWhatWasTyped(max: nat, before: seq<Event>, line: Text, stray: ClientState)
    requires Ready(Run(Launch(max), before)) && ChatLine(line)
    requires Run(Launch(max), before).udp.fsm.current == Open
    ensures var c := Run(Launch(max), before);
      Posts(c.udp.link, Tock(c, FromUser(line, stray)).udp.link, Chat, [NameAfter(max, before), line])
  {
    TypedLinesDoRight(max, before, line, stray);
    GrantedExactly(max, before);
    NameIsTheLatest(max, before);
    ChatIsNoCommand(line);
  }

  /** `/join` in OPEN leaves as a JOIN of that channel, in the latest name. */
  lemma JoinSaysWhatWasTyped(max: nat, before: seq<Event>, line: Text, stray: ClientState)
    requires Ready(Run(Launch(max), before)) && ChannelLine(line)
    requires Run(Launch(max), before).udp.fsm.current == Open
    ensures var c := Run(Launch(max), before);
      Posts(c.udp.link, Tock(c, FromUser(line, stray)).udp.link, JoinChannel, [Argument(line), NameAfter(max, before)])
  {
    assert |line| > 0;
    TypedLinesDoRight(max, before, line, stray);
    GrantedExactly(max, before);
    NameIsTheLatest(max, before);
  }

  /** A request in good form outside the states that grant it: nothing is sent, the name stays, and
      the user is told why. */
  lemma RefusedExactly(max: nat, before: seq<Event>, line: Text, stray: ClientState)
    requires Ready(Run(Launch(max), before))
    requires AuthorizeLine(line) || ChannelLine(line) || ChatLine(line)
    requires Step(Run(Launch(max), before).udp.fsm, ActionOf(WishOf([], line).kind)).1 != Allow
    ensures var c := Run(Launch(max), before);
      var n := Tock(c, FromUser(line, stray));
      && Untouched(c.udp, n.udp) && n.state == ReadyForInput
      && n.udp.shown == c.udp.shown
         + [Internal(if AuthorizeLine(line) then NO_AUTH else if ChannelLine(line) then NO_JOIN else NO_MSG)]
  {
    assert |line| > 0;
    if ChatLine(line) {
      ChatIsNoCommand(line);
    }
    TypedLinesDoRight(max, before, line, stray);
  }

  // ------------------------------------------------------------------------------- on the wire

  /** Nothing left, or one record that says its kind and its number. */
  ghost predicate Grown(l: Link, r: Link) {
    || r.sent == l.sent
    || (exists kind, fields ::
          Originates(l, r, kind) && Spells(r.sent[|l.sent|].data, WireCode(kind), l.next, fields))
  }

  lemma PostsGrown(l: Link, r: Link, kind: Kind, fields: seq<Text>)
    requires Posts(l, r, kind, fields)
    ensures Grown(l, r)
  {
  }

  lemma LineGrows(u: Udp, line: Text)
    requires Held(u.fsm) && Mannered(u)
    ensures Grown(u.link, UserStep(u, line).0.link)
  {
    LinesDoRight(u, line);
  }

  lemma DatagramGrows(c: Client, d: Datagram)
    requires Fit(c) && c.state != Closed
    ensures Grown(c.udp.link, ServerStep(c.udp, d).0.link)
  {
    if d[0] == CONFIRM {
      ConfirmDoesRight(c.udp, d);
    } else {
      ServerDoesRight(c.udp, d);
    }
  }

  lemma TockGrown(c: Client, e: Event)
    requires Fit(c)
    ensures Grown(c.udp.link, Tock(c, e).udp.link)
  {
    if c.state != Closed {
      match e {
        case FromServer(d) =>
          DatagramIsTaken(c, d);
          DatagramGrows(c, d);
        case FromUser(line, stray) =>
          if Listening(c.state) && |line| > 0 {
            LineIsTaken(c, line, stray);
            LineGrows(c.udp, line);
          }
        case Timeout =>
        case _ => LineGrows(c.udp, "/exit");
      }
    }
  }

  /** The octets of the k-th original: the code of its kind, k high octet first, and fields. */
  ghost predicate SpelledOut(o: Original, k: nat) {
    exists fields :: Spells(o.data, WireCode(o.kind), k % 65536, fields)
  }

  ghost predicate AllSpelledOut(sent: seq<Original>) {
    forall k :: 0 <= k < |sent| ==> SpelledOut(sent[k], k)
  }

  lemma GrownSpelledOut(l: Link, r: Link)
    requires AllSpelledOut(l.sent) && Grown(l, r) && l.next == |l.sent| % 65536
    ensures AllSpelledOut(r.sent)
  {
    forall k | 0 <= k < |r.sent| ensures SpelledOut(r.sent[k], k) {
      if k < |l.sent| {
        assert r.sent[k] == l.sent[k];
      }
    }
  }

  /** Over every run, the k-th original has its kind's code in the first octet and k, modulo 65536
      and high octet first, in the next two. */
  lemma {:induction false} OriginalsOnTheWire(max: nat, events: seq<Event>)
    ensures AllSpelledOut(Run(Launch(max), events).udp.link.sent)
  {
    if |events| > 0 {
      var init := events[..|events| - 1];
      OriginalsOnTheWire(max, init);
      RunFit(max, init);
      TockGrown(Run(Launch(max), init), events[|events| - 1]);
      GrownSpelledOut(Run(Launch(max), init).udp.link, Run(Launch(max), events).udp.link);
    }
  }

  /** A CONFIRM is three octets: 0 and the identifier, high octet first. */
  lemma ConfirmOnTheWire(id: MsgId)
    ensures |Record(CONFIRM, id, [])| == 3 && Spells(Record(CONFIRM, id, []), 0, id, [])
  {
    RecordSpells(CONFIRM, id, []);
  }
}
