/** The session machine read by action instead of by state: what lets an action through, where it
    leads and what it arms. */
module SessionTable {
  import opened Session

  /** The states in which an action is welcome when no restriction is armed. */
  function Welcome(a: Action): set<State> {
    match a
    case AuthorizeUser => {Start, Auth}
    case JoinUser | MessageUser | MessageServer | ByeServer | ErrorUser => {Open}
    case ReplyServer | NReplyServer | ErrorServer => {Auth, Open}
    case ByeUser => {Open, Error}
    case _ => {}
  }

  /** A restriction admits what it lists; without one the state decides. */
  predicate Admits(f: Fsm, a: Action) {
    if Restricted(f) then a in f.expected else f.current in Welcome(a)
  }

  /** In these two states an unrestricted machine judges nothing: END answers OVER to everything,
      and ERROR has no answer. `ByeUser` in AUTH is answered OVER as well. */
  predicate Silent(f: Fsm, a: Action) {
    !Restricted(f) && (f.current in {End, Error, Unset} || (f.current == Auth && a == ByeUser))
  }

  /** An action gets through exactly when it is admitted; otherwise the user is warned and the
      server is at fault. */
  lemma LetThroughExactly(f: Fsm, a: Action)
    requires GetSource(a) != Neither
    ensures Step(f, a).1 == Allow <==> Admits(f, a)
    ensures !Silent(f, a) && !Admits(f, a) ==> Step(f, a).1 == if GetSource(a) == User then Warn else Fail
    ensures f.current == Auth && !Restricted(f) ==> Step(f, ByeUser).1 == Finished
  {
  }

  /** Where the machine goes. A fault leads to ERROR; a warning back to where an armed machine came
      from, and nowhere otherwise; and each state is entered by the actions named. */
  lemma GoesExactly(f: Fsm, a: Action)
    requires GetSource(a) != Neither
    ensures var (g, r) := Step(f, a);
      && (r == Fail ==> g.current == Error)
      && (r == Warn ==> g.current == if Restricted(f) then f.previous else f.current)
      && (r == Allow && Restricted(f) ==> g.current == f.current)
      && (r == Allow && !Restricted(f) ==>
            && (g.current == Open <==>
                  (f.current, a) == (Auth, ReplyServer)
                  || (f.current == Open && a !in {ErrorServer, ByeServer, ByeUser, ErrorUser}))
            && (g.current == Auth <==> a == AuthorizeUser || (f.current == Auth && a == NReplyServer))
            && (g.current == End <==> a in {ErrorServer, ByeServer, ByeUser, ErrorUser}))
      && (r in {Finished, Undefined} ==> g.current == if a == ByeUser && f.current == Auth then End else f.current)
  {
  }

  /** What is expected next. A fault, and the server's ERR, leave only the user's BYE; AUTH accepted
      in AUTH and its refusal arm the two lists that narrow a login; everything else lifts them. */
  lemma ArmsExactly(f: Fsm, a: Action)
    requires GetSource(a) != Neither && !Silent(f, a)
    ensures var (g, r) := Step(f, a);
      && (g.expected == [ByeUser] <==>
            r == Fail || (r == Allow && !Restricted(f) && a == ErrorServer))
      && (g.expected == [ReplyServer, NReplyServer, ErrorServer] <==>
            r == Allow && !Restricted(f) && a == AuthorizeUser && f.current == Auth)
      && (g.expected == [AuthorizeUser] <==>
            r == Allow && !Restricted(f) && a == NReplyServer && f.current == Auth)
      && (Restricted(f) && r != Fail ==> g.expected == [Any])
      && (r == Warn ==> g.expected == [Any])
      && (r == Allow && a in {JoinUser, MessageUser, MessageServer, ReplyServer, ByeServer} ==> g.expected == [Any])
      && (f.current == Start && a == AuthorizeUser && r == Allow ==> g.expected == [Any])
      && (r == Allow && !Restricted(f) && f.current == Open ==>
            (a == ByeUser ==> g.expected == [ErrorServer]) && (a == ErrorUser ==> g.expected == [ByeServer]))
  {
  }

  /** Where it judges nothing, the list stays, except that the user's BYE in AUTH narrows it. */
  lemma SilentKeeps(f: Fsm, a: Action)
    requires GetSource(a) != Neither && Silent(f, a)
    ensures var (g, r) := Step(f, a);
      && (f.current == End ==> r == Finished && g.expected == f.expected)
      && (f.current == Error && a != ByeUser ==> r == Undefined && g.expected == f.expected)
      && (f.current == Auth ==> r == Finished && g.expected == [EmptyServer, ErrorServer])
  {
  }

  /** A rollback leads to the state the latest unrestricted action met. */
  lemma RemembersExactly(f: Fsm, a: Action)
    requires f.current != Unset
    ensures Step(f, a).0.previous == if Restricted(f) then f.previous else f.current
  {
  }

  /** What the user may do, in every state the handlers ever hold. */
  lemma UserGranted(f: Fsm)
    requires Sound(f) && ListFits(f)
    ensures Step(f, MessageUser).1 == Allow <==> f.current == Open
    ensures Step(f, JoinUser).1 == Allow <==> f.current == Open
    ensures Step(f, AuthorizeUser).1 == Allow
      <==> f.current == Start || (f.current == Auth && ReplyServer !in f.expected)
  {
    LetThroughExactly(f, MessageUser);
    LetThroughExactly(f, JoinUser);
    LetThroughExactly(f, AuthorizeUser);
  }
}
