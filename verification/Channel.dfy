/** The client, an unreliable network and a peer that confirms only what it has received. */
module Channel {
  import opened Octets
  import opened UdpRecords
  import opened Common
  import opened UdpMachine
  import opened UdpDelivery
  import opened UdpReceipts

  /** `seen` is what the peer has received, `posted` what it has put on the wire. Both only grow,
      and anything ever put on the wire may arrive at any time, any number of times, or never:
      the network loses, duplicates and reorders as it likes. */
  datatype Net = Net(client: Client, seen: set<Text>, posted: set<Datagram>)

  datatype Act = Local(e: Event) | Arrive(copy: Text) | Post(d: Datagram) | Deliver(d: Datagram)

  /** An original or a retransmission. */
  predicate Carried(l: Link, d: Text) {
    || (exists k :: 0 <= k < |l.sent| && l.sent[k].data == d)
    || (exists k :: 0 <= k < |l.ticks| && l.ticks[k].Again? && l.ticks[k].data == d)
  }

  /** A CONFIRM the client sent. */
  predicate Acknowledges(receipts: seq<Receipt>, d: Text) {
    exists k :: 0 <= k < |receipts| && d == Record(CONFIRM, receipts[k].id, [])
  }

  /** The client put this on the wire. */
  predicate Transmitted(u: Udp, d: Text) {
    Carried(u.link, d) || Acknowledges(u.receipts, d)
  }

  /** A record that asks for a CONFIRM. */
  predicate Confirmable(d: Text) {
    |d| >= 3 && d[0] != CONFIRM
  }

  predicate Knows(seen: set<Text>, id: MsgId) {
    exists d :: d in seen && Confirmable(d) && IdOf(d) == id
  }

  predicate Enabled(n: Net, a: Act) {
    match a
    case Local(e) => !e.FromServer?
    case Arrive(d) => Transmitted(n.client.udp, d)
    case Post(d) => d[0] == CONFIRM ==> Knows(n.seen, IdOf(d))
    case Deliver(d) => d in n.posted
  }

  function Next(n: Net, a: Act): Net {
    if !Enabled(n, a) then n
    else match a
      case Local(e) => n.(client := Tock(n.client, e))
      case Arrive(d) => n.(seen := n.seen + {d})
      case Post(d) => n.(posted := n.posted + {d})
      case Deliver(d) => n.(client := Tock(n.client, FromServer(d)))
  }

  function Go(max: nat, acts: seq<Act>): Net {
    if |acts| == 0 then Net(Launch(max), {}, {})
    else Next(Go(max, acts[..|acts| - 1]), acts[|acts| - 1])
  }

  predicate SaidBye(l: Link) {
    exists k :: 0 <= k < |l.sent| && l.sent[k].kind == Farewell
  }

  /** Before the first BYE and before identifiers wrap around. */
  predicate Early(l: Link) {
    !SaidBye(l) && |l.sent| <= 65536
  }

  predicate AllSeen(l: Link, seen: set<Text>, n: nat)
    requires n <= |l.sent|
  {
    forall k :: 0 <= k < n ==> l.sent[k].data in seen
  }

  predicate Delivered(l: Link, seen: set<Text>) {
    && (l.waiting ==> |l.sent| > 0)
    && AllSeen(l, seen, if l.waiting then |l.sent| - 1 else |l.sent|)
  }

  ghost predicate Coherent(n: Net) {
    var l := n.client.udp.link;
    && Inv(n.client)
    && (l.awaitingOver ==> SaidBye(l))
    && (forall d :: d in n.seen ==> Transmitted(n.client.udp, d))
    && (forall d :: d in n.posted && d[0] == CONFIRM ==> Knows(n.seen, IdOf(d)))
    && (Early(l) ==> Delivered(l, n.seen))
  }

  /** What is carried is an original, except that nothing can be retransmitted before there is
      one: then the datagram is empty. */
  lemma CarriedOriginal(l: Link, d: Text) returns (k: nat)
    requires Numbered(l) && Carried(l, d) && |d| > 0
    ensures k < |l.sent| && l.sent[k].data == d
  {
    if t :| 0 <= t < |l.ticks| && l.ticks[t].Again? && l.ticks[t].data == d {
      var n := l.ticks[t].after;
      k := n - 1;
      assert l.sent[..n][k] == l.sent[k];
    } else {
      k :| k < |l.sent| && l.sent[k].data == d;
    }
  }

  lemma OneOriginalPerId(a: Original, j: nat, b: Original, k: nat)
    requires Labelled(a, j) && Labelled(b, k) && j < 65536 && k < 65536
    requires IdOf(a.data) == b.id
    ensures j == k
  {
  }

  predicate AllCarried(l: Link, seen: set<Text>) {
    forall d :: d in seen && Confirmable(d) ==> Carried(l, d)
  }

  lemma ConfirmableIsCarried(u: Udp, d: Text)
    requires Transmitted(u, d) && Confirmable(d)
    ensures Carried(u.link, d)
  {
    forall k | 0 <= k < |u.receipts| ensures d != Record(CONFIRM, u.receipts[k].id, []) {
      HeaderRoundTrip(CONFIRM, u.receipts[k].id, []);
    }
  }

  lemma KnownIsLatest(l: Link, seen: set<Text>, id: MsgId)
    requires Numbered(l) && |l.sent| <= 65536 && l.waiting && id == l.awaited
    requires Knows(seen, id) && AllCarried(l, seen)
    ensures l.sent[|l.sent| - 1].data in seen
  {
    var d :| d in seen && Confirmable(d) && IdOf(d) == id;
    var k := CarriedOriginal(l, d);
    OneOriginalPerId(l.sent[k], k, l.sent[|l.sent| - 1], |l.sent| - 1);
  }

  /** The moves after which a BYE has been sent. */
  predicate Departs(l: Link, m: Move) {
    m.Bye? || (m.Heard? && Hear(l, m.id).1 in {Parting, Apologized})
  }

  lemma ByeStays(l: Link, r: Link)
    requires l.sent <= r.sent && SaidBye(l)
    ensures SaidBye(r)
  {
    var k :| 0 <= k < |l.sent| && l.sent[k].kind == Farewell;
    assert r.sent[k] == l.sent[k];
  }

  lemma DepartsSaysBye(l: Link, m: Move)
    requires Departs(l, m) && (l.awaitingOver ==> SaidBye(l))
    ensures SaidBye(Apply(l, m))
  {
    var r := Apply(l, m);
    if SaidBye(l) {
      ByeStays(l, r);
    } else {
      assert r.sent[|l.sent|].kind == Farewell;
    }
  }

  lemma MoveGrows(l: Link, m: Move)
    ensures var r := Apply(l, m);
      && l.sent <= r.sent && l.ticks <= r.ticks
      && (r.awaitingOver ==> l.awaitingOver || Departs(l, m))
  {
    ApplyGrows(l, m);
  }

  lemma MoveKeepsWire(l: Link, m: Move)
    requires l.awaitingOver ==> SaidBye(l)
    ensures var r := Apply(l, m);
      && l.sent <= r.sent && l.ticks <= r.ticks
      && (r.awaitingOver ==> SaidBye(r)) && (Early(r) ==> Early(l))
      && (Departs(l, m) ==> SaidBye(r))
  {
    var r := Apply(l, m);
    MoveGrows(l, m);
    if Departs(l, m) {
      DepartsSaysBye(l, m);
    }
    if SaidBye(l) {
      ByeStays(l, r);
    }
  }

  lemma MoveDelivers(l: Link, m: Move, seen: set<Text>)
    requires Numbered(l) && Legal(l, m) && !Departs(l, m)
    requires Delivered(l, seen) && Early(l)
    requires m.Heard? ==> Knows(seen, m.id) && AllCarried(l, seen)
    ensures Delivered(Apply(l, m), seen)
  {
    if m.Heard? {
      HeardDelivers(l, m.id, seen);
    }
  }

  lemma HeardDelivers(l: Link, id: MsgId, seen: set<Text>)
    requires Numbered(l) && Hear(l, id).1 in {Unmatched, Settled}
    requires Delivered(l, seen) && Early(l)
    requires Knows(seen, id) && AllCarried(l, seen)
    ensures Delivered(Hear(l, id).0, seen)
  {
    if id == l.awaited && l.waiting {
      KnownIsLatest(l, seen, id);
    }
  }

  lemma CarriedStays(l: Link, r: Link, d: Text)
    requires Carried(l, d) && l.sent <= r.sent && l.ticks <= r.ticks
    ensures Carried(r, d)
  {
    if exists k :: 0 <= k < |l.sent| && l.sent[k].data == d {
      var k :| 0 <= k < |l.sent| && l.sent[k].data == d;
      assert r.sent[k] == l.sent[k];
    } else {
      var k :| 0 <= k < |l.ticks| && l.ticks[k].Again? && l.ticks[k].data == d;
      assert r.ticks[k] == l.ticks[k];
    }
  }

  lemma TransmittedStays(u: Udp, v: Udp, d: Text)
    requires Transmitted(u, d) && Receives(u, v)
    requires u.link.sent <= v.link.sent && u.link.ticks <= v.link.ticks
    ensures Transmitted(v, d)
  {
    if Carried(u.link, d) {
      CarriedStays(u.link, v.link, d);
    } else {
      var k :| 0 <= k < |u.receipts| && d == Record(CONFIRM, u.receipts[k].id, []);
      assert v.receipts[k] == u.receipts[k];
    }
  }

  lemma ClientCoherent(n: Net, e: Event)
    requires Coherent(n)
    requires e.FromServer? && e.d[0] == CONFIRM ==> Knows(n.seen, IdOf(e.d))
    ensures Coherent(n.(client := Tock(n.client, e)))
  {
    var l := n.client.udp.link;
    var m := TockMove(n.client, e);
    var r := Apply(l, m);
    TockKeeps(n.client, e);
    TockReceives(n.client, e);
    MoveKeepsWire(l, m);
    forall d | d in n.seen ensures Transmitted(Tock(n.client, e).udp, d) {
      TransmittedStays(n.client.udp, Tock(n.client, e).udp, d);
    }
    if Early(r) && !Departs(l, m) {
      assert AllCarried(l, n.seen) by { SeenIsCarried(n); }
      MoveDelivers(l, m, n.seen);
    }
  }

  lemma SeenIsCarried(n: Net)
    requires Coherent(n)
    ensures AllCarried(n.client.udp.link, n.seen)
  {
    forall d | d in n.seen && Confirmable(d) ensures Carried(n.client.udp.link, d) {
      ConfirmableIsCarried(n.client.udp, d);
    }
  }

  lemma NextCoherent(n: Net, a: Act)
    requires Coherent(n)
    ensures Coherent(Next(n, a))
  {
    if Enabled(n, a) {
      match a {
        case Local(e) => ClientCoherent(n, e);
        case Deliver(d) => ClientCoherent(n, FromServer(d));
        case Arrive(d) => MoreSeen(n, d);
        case Post(_) =>
      }
    }
  }

  lemma MoreSeen(n: Net, d: Text)
    requires Coherent(n) && Transmitted(n.client.udp, d)
    ensures Coherent(n.(seen := n.seen + {d}))
  {
    forall p | p in n.posted && p[0] == CONFIRM ensures Knows(n.seen + {d}, IdOf(p)) {
      var x :| x in n.seen && Confirmable(x) && IdOf(x) == IdOf(p);
      assert x in n.seen + {d};
    }
  }

  lemma {:induction false} GoCoherent(max: nat, acts: seq<Act>)
    ensures Coherent(Go(max, acts))
  {
    if |acts| > 0 {
      GoCoherent(max, acts[..|acts| - 1]);
      NextCoherent(Go(max, acts[..|acts| - 1]), acts[|acts| - 1]);
    }
  }

  /** Of the originals, exactly the first `m` have been seen. */
  predicate SeenUpTo(l: Link, seen: set<Text>, m: nat) {
    forall k :: 0 <= k < |l.sent| ==> (l.sent[k].data in seen <==> k < m)
  }

  /** The originals seen are all of them, or all but the latest. */
  predicate PrefixSeen(l: Link, seen: set<Text>) {
    SeenUpTo(l, seen, |l.sent|) || (|l.sent| > 0 && SeenUpTo(l, seen, |l.sent| - 1))
  }

  /** Up to the first BYE and until identifiers wrap around, the originals the peer has received
      are the first so many of those sent, all of them or all but the latest. */
  lemma DeliveredInOrder(max: nat, acts: seq<Act>)
    requires Early(Go(max, acts).client.udp.link)
    ensures PrefixSeen(Go(max, acts).client.udp.link, Go(max, acts).seen)
  {
    GoDelivered(max, acts);
    DeliveredIsPrefix(Go(max, acts).client.udp.link, Go(max, acts).seen);
  }

  lemma GoDelivered(max: nat, acts: seq<Act>)
    requires Early(Go(max, acts).client.udp.link)
    ensures Delivered(Go(max, acts).client.udp.link, Go(max, acts).seen)
  {
    GoCoherent(max, acts);
  }

  lemma DeliveredIsPrefix(l: Link, seen: set<Text>)
    requires Delivered(l, seen)
    ensures PrefixSeen(l, seen)
  {
    if |l.sent| > 0 && l.sent[|l.sent| - 1].data !in seen {
      assert SeenUpTo(l, seen, |l.sent| - 1);
    } else {
      assert SeenUpTo(l, seen, |l.sent|);
    }
  }

  /** And whatever the peer has received is an original the client sent, a CONFIRM the client
      sent, or empty. */
  lemma NothingElseDelivered(max: nat, acts: seq<Act>, d: Text)
    requires d in Go(max, acts).seen
    ensures var u := Go(max, acts).client.udp;
      || |d| == 0
      || (exists k :: 0 <= k < |u.link.sent| && u.link.sent[k].data == d)
      || Acknowledges(u.receipts, d)
  {
    GoCoherent(max, acts);
    var u := Go(max, acts).client.udp;
    if |d| > 0 && Carried(u.link, d) {
      var k := CarriedOriginal(u.link, d);
    }
  }
}
