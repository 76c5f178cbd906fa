/** No chat before login, in terms of what kinds of message were sent and what the session
    machine had answered by then. */
module Login {
  import opened Session
  import opened Common

  ghost predicate Logged(kinds: seq<Kind>, vs: seq<Verdict>) {
    forall k :: 0 <= k < |kinds| && kinds[k] in {JoinChannel, Chat} ==> LoggedIn(vs, k)
  }

  /** One of the two answers that the side of the conversation the action comes from allows for. */
  predicate Proper(v: Verdict) {
    match GetSource(v.action)
    case User => v.reaction in {Allow, Warn}
    case Server => v.reaction in {Allow, Fail}
    case Neither => false
  }

  /** The verdicts explain the machine's state and every JOIN and MSG sent. */
  ghost predicate Lawful(f: Fsm, kinds: seq<Kind>, vs: seq<Verdict>) {
    && Earned(f, vs, |kinds|)
    && Logged(kinds, vs)
    && (forall k :: 0 <= k < |vs| ==> Proper(vs[k]))
  }

  lemma LoggedKeeps(kinds: seq<Kind>, vs: seq<Verdict>, more: seq<Verdict>)
    requires Logged(kinds, vs)
    ensures Logged(kinds, vs + more)
  {
    forall k | 0 <= k < |kinds| && kinds[k] in {JoinChannel, Chat} ensures LoggedIn(vs + more, k) {
      LoggedInGrows(vs, k, more, k);
    }
  }

  lemma ConsultLawful(f: Fsm, kinds: seq<Kind>, vs: seq<Verdict>, a: Action)
    requires Lawful(f, kinds, vs)
    requires Proper(Verdict(|kinds|, a, Step(f, a).1))
    ensures var (g, r) := Step(f, a);
      && Lawful(g, kinds, vs + [Verdict(|kinds|, a, r)])
      && (r == Allow && a in {JoinUser, MessageUser} ==> LoggedIn(vs + [Verdict(|kinds|, a, r)], |kinds|))
  {
    var v := Verdict(|kinds|, a, Step(f, a).1);
    StepEarned(f, vs, |kinds|, a);
    LoggedKeeps(kinds, vs, [v]);
    if LoggedIn(vs, |kinds|) {
      LoggedInGrows(vs, |kinds|, [v], |kinds|);
    }
  }

  lemma SayLawful(f: Fsm, kinds: seq<Kind>, vs: seq<Verdict>, kind: Kind)
    requires Lawful(f, kinds, vs)
    requires kind in {JoinChannel, Chat} ==> LoggedIn(vs, |kinds|)
    ensures Lawful(f, kinds + [kind], vs)
  {
    if LoggedIn(vs, |kinds|) {
      LoggedInGrows(vs, |kinds|, [], |kinds| + 1);
      assert vs + [] == vs;
    }
  }
}
