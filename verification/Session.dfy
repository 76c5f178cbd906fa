/** The session Mealy machine shared by both transports. */
module Session {

  datatype Action =
    | EmptyServer | EmptyUser | AuthorizeUser | JoinUser | MessageUser | MessageServer
    | ByeUser | ByeServer | ErrorUser | ErrorServer | ReplyServer | NReplyServer
    | AnyUser | AnyServer | Any | WarnClient | Over

  /** The answers the machine gives. `Undefined` is control reaching the end of a
      value-returning function, or a switch on a variable nothing was assigned to. */
  datatype Reaction = Allow | Warn | Fail | Finished | Undefined

  /** `Unset` is the value of `previousState` before anything is assigned to it. */
  datatype State = Start | Auth | Open | Error | End | Unset

  datatype Source = Server | User | Neither

  function GetSource(a: Action): Source {
    match a
    case EmptyServer | MessageServer | ByeServer | ErrorServer | ReplyServer | NReplyServer => Server
    case EmptyUser | AuthorizeUser | JoinUser | MessageUser | ByeUser | ErrorUser => User
    case _ => Neither
  }

  datatype Fsm = Fsm(current: State, previous: State, expected: seq<Action>)

  const FRESH := Fsm(Start, Unset, [])

  /** The override in front of the state switch is armed. */
  predicate Restricted(f: Fsm) {
    |f.expected| > 0 && f.expected[0] != Any
  }

  /** The answer to an action that a restriction is armed against. */
  function Expect(f: Fsm, a: Action): (Fsm, Reaction) {
    if a in f.expected then (f.(expected := [Any]), Allow)
    else match GetSource(a)
      case User => (f.(expected := [Any], current := f.previous), Warn)
      case Server => (f.(expected := [ByeUser], current := Error), Fail)
      case Neither => (f, Undefined)
  }

  /** The answer of a state to an action it has no rule for. */
  function Refuse(f: Fsm, a: Action): (Fsm, Reaction) {
    match GetSource(a)
    case User => (f.(expected := [Any]), Warn)
    case Server => (f.(expected := [ByeUser], current := Error), Fail)
    case Neither => (f, Undefined)
  }

  function Dispatch(f: Fsm, a: Action): (Fsm, Reaction) {
    var g := f.(previous := f.current);
    match f.current
    case Start =>
      if a == AuthorizeUser then (g.(expected := [Any], current := Auth), Allow) else Refuse(g, a)
    case Auth => (
      match a
      case AuthorizeUser => (g.(expected := [ReplyServer, NReplyServer, ErrorServer]), Allow)
      case ByeUser => (g.(expected := [EmptyServer, ErrorServer], current := End), Finished)
      case ErrorServer => (g.(expected := [ByeUser], current := End), Allow)
      case ReplyServer => (g.(expected := [Any], current := Open), Allow)
      case NReplyServer => (g.(expected := [AuthorizeUser]), Allow)
      case _ => Refuse(g, a))
    case Open => (
      match a
      case MessageServer | ReplyServer | NReplyServer | JoinUser | MessageUser =>
        (g.(expected := [Any]), Allow)
      case ErrorServer => (g.(expected := [ByeUser], current := End), Allow)
      case ByeServer => (g.(expected := [Any], current := End), Allow)
      case ByeUser => (g.(expected := [ErrorServer], current := End), Allow)
      case ErrorUser => (g.(expected := [ByeServer], current := End), Allow)
      case _ => Refuse(g, a))
    case Error => if a == ByeUser then (g.(current := End), Allow) else (g, Undefined)
    case End => (g, Finished)
    case Unset => (f, Undefined)
  }

  function Step(f: Fsm, a: Action): (Fsm, Reaction) {
    if Restricted(f) then Expect(f, a) else Dispatch(f, a)
  }

  /** The machine as the program keeps it: three fields overwritten in place. */
  class FSMValidate {
    var currentState: State
    var previousState: State
    var expectedAction: seq<Action>

    ghost function View(): Fsm
      reads this
    {
      Fsm(currentState, previousState, expectedAction)
    }

    constructor ()
      ensures View() == FRESH
    {
      currentState, previousState, expectedAction := Start, Unset, [];
    }

    method CheckExpectedAction(action: Action) returns (found: bool)
      requires |expectedAction| > 0
      ensures found <==> action in expectedAction || expectedAction[0] == Any
    {
      for i := 0 to |expectedAction|
        invariant action !in expectedAction[..i]
      {
        if expectedAction[i] == action {
          return true;
        }
      }
      return expectedAction[0] == Any;
    }

    method ValidateAction(action: Action) returns (r: Reaction)
      modifies this
      ensures (View(), r) == Step(old(View()), action)
    {
      if |expectedAction| > 0 && expectedAction[0] != Any {
        var found := CheckExpectedAction(action);
        if !found {
          match GetSource(action) {
            case User =>
              expectedAction := [Any];
              currentState := previousState;
              return Warn;
            case Server =>
              expectedAction := [ByeUser];
              currentState := Error;
              return Fail;
            case Neither =>
              return Undefined;
          }
        }
        expectedAction := [Any];
        return Allow;
      }
      match currentState {
        case Start => r := AtStart(action);
        case Auth => r := AtAuth(action);
        case Open => r := AtOpen(action);
        case Error =>
          previousState := Error;
          if action == ByeUser {
            currentState := End;
            return Allow;
          }
          return Undefined;
        case End =>
          previousState := End;
          return Finished;
        case Unset =>
          return Undefined;
      }
    }

    /** The tail every state's branch ends in when it has no rule for the action. */
    method TurnDown(action: Action) returns (r: Reaction)
      modifies this
      ensures (View(), r) == Refuse(old(View()), action)
    {
      match GetSource(action) {
        case User =>
          expectedAction := [Any];
          return Warn;
        case Server =>
          expectedAction := [ByeUser];
          currentState := Error;
          return Fail;
        case Neither =>
          return Undefined;
      }
    }

    method AtStart(action: Action) returns (r: Reaction)
      requires currentState == Start
      modifies this
      ensures (View(), r) == Dispatch(old(View()), action)
    {
      previousState := Start;
      if action == AuthorizeUser {
        expectedAction := [Any];
        currentState := Auth;
        return Allow;
      }
      r := TurnDown(action);
    }

    method AtAuth(action: Action) returns (r: Reaction)
      requires currentState == Auth
      modifies this
      ensures (View(), r) == Dispatch(old(View()), action)
    {
      previousState := Auth;
      match action {
        case AuthorizeUser =>
          expectedAction := [ReplyServer, NReplyServer, ErrorServer];
          currentState := Auth;
          return Allow;
        case ByeUser =>
          currentState := End;
          expectedAction := [EmptyServer, ErrorServer];
          return Finished;
        case ErrorServer =>
          currentState := End;
          expectedAction := [ByeUser];
          return Allow;
        case ReplyServer =>
          currentState := Open;
          expectedAction := [Any];
          return Allow;
        case NReplyServer =>
          currentState := Auth;
          expectedAction := [AuthorizeUser];
          return Allow;
        case _ =>
          r := TurnDown(action);
      }
    }

    method AtOpen(action: Action) returns (r: Reaction)
      requires currentState == Open
      modifies this
      ensures (View(), r) == Dispatch(old(View()), action)
    {
      previousState := Open;
      match action {
        case MessageServer | ReplyServer | NReplyServer | JoinUser | MessageUser =>
          expectedAction := [Any];
          currentState := Open;
          return Allow;
        case ErrorServer =>
          currentState := End;
          expectedAction := [ByeUser];
          return Allow;
        case ByeServer =>
          currentState := End;
          expectedAction := [Any];
          return Allow;
        case ByeUser =>
          currentState := End;
          expectedAction := [ErrorServer];
          return Allow;
        case ErrorUser =>
          currentState := End;
          expectedAction := [ByeServer];
          return Allow;
        case _ =>
          r := TurnDown(action);
      }
    }
  }

  // ------------------------------------------------------------------------ the machine's runs

  function After(f: Fsm, actions: seq<Action>): Fsm {
    if |actions| == 0 then f
    else Step(After(f, actions[..|actions| - 1]), actions[|actions| - 1]).0
  }

  function Answer(f: Fsm, actions: seq<Action>, k: nat): Reaction
    requires k < |actions|
  {
    Step(After(f, actions[..k]), actions[k]).1
  }

  predicate UserAction(a: Action) {
    a in {AuthorizeUser, JoinUser, MessageUser}
  }

  /** The actions the two protocol handlers submit. */
  predicate Submitted(a: Action) {
    || UserAction(a)
    || a in {MessageServer, ByeServer, ErrorServer, ReplyServer, NReplyServer}
  }

  predicate AllSubmitted(actions: seq<Action>) {
    forall k :: 0 <= k < |actions| ==> Submitted(actions[k])
  }

  /** Holds from the start on and under every action whatsoever: `previousState` has been
      assigned before a rollback can read it, and no restriction lets chat through. */
  predicate Sound(f: Fsm) {
    && f.current != Unset
    && (f.previous == Unset ==> f.current == Start && f.expected == [])
    && JoinUser !in f.expected && MessageUser !in f.expected
  }

  lemma ExpectSound(f: Fsm, a: Action)
    requires Sound(f) && Restricted(f)
    ensures Sound(Expect(f, a).0)
  {
  }

  lemma DispatchSound(f: Fsm, a: Action)
    requires Sound(f)
    ensures Sound(Dispatch(f, a).0)
  {
  }

  lemma StepSound(f: Fsm, a: Action)
    requires Sound(f)
    ensures Sound(Step(f, a).0)
  {
    if Restricted(f) {
      ExpectSound(f, a);
    } else {
      DispatchSound(f, a);
    }
  }

  /** Holds as long as only submitted actions arrive. */
  predicate Tame(f: Fsm) {
    && Sound(f)
    && (f.current == Error ==> f.expected == [ByeUser])
    && f.previous != Error
    && (f.current == End ==> f.expected in [[ByeUser], [Any]])
    && (f.previous == End ==> f.current == End && f.expected == [Any])
    && (f.current == End && f.expected == [ByeUser] ==> f.previous in {Auth, Open})
    && ByeServer !in f.expected
  }

  lemma ExpectTame(f: Fsm, a: Action)
    requires Tame(f) && Submitted(a) && Restricted(f)
    ensures Tame(Expect(f, a).0) && Expect(f, a).1 !in {Finished, Undefined}
  {
  }

  lemma DispatchTame(f: Fsm, a: Action)
    requires Tame(f) && Submitted(a) && !Restricted(f)
    ensures Tame(Dispatch(f, a).0) && Dispatch(f, a).1 != Undefined
  {
  }

  lemma StepTame(f: Fsm, a: Action)
    requires Tame(f) && Submitted(a)
    ensures Tame(Step(f, a).0)
    ensures Step(f, a).1 != Undefined
    ensures GetSource(a) == User ==> Step(f, a).1 in {Allow, Warn, Finished}
    ensures GetSource(a) == Server ==> Step(f, a).1 in {Allow, Fail, Finished}
  {
    if Restricted(f) {
      ExpectTame(f, a);
    } else {
      DispatchTame(f, a);
    }
  }

  lemma {:induction false} RunTame(actions: seq<Action>)
    requires AllSubmitted(actions)
    ensures Tame(After(FRESH, actions))
  {
    if actions != [] {
      var init := actions[..|actions| - 1];
      assert AllSubmitted(init);
      RunTame(init);
      StepTame(After(FRESH, init), actions[|actions| - 1]);
    }
  }

  lemma {:induction false} RunSound(actions: seq<Action>)
    ensures Sound(After(FRESH, actions))
  {
    if actions != [] {
      var init := actions[..|actions| - 1];
      RunSound(init);
      StepSound(After(FRESH, init), actions[|actions| - 1]);
    }
  }

  /** No sequence of submitted actions reaches the branch with no return value. */
  lemma SubmittedActionsAreAnswered(actions: seq<Action>, k: nat)
    requires AllSubmitted(actions) && k < |actions|
    ensures Answer(FRESH, actions, k) != Undefined
  {
    assert AllSubmitted(actions[..k]);
    RunTame(actions[..k]);
    StepTame(After(FRESH, actions[..k]), actions[k]);
  }

  /** For arbitrary actions with a source, the answer is undefined in exactly one situation:
      the machine is in ERROR, its restriction has been used up, and this is no BYE. */
  lemma UndefinedExactly(actions: seq<Action>, a: Action)
    requires GetSource(a) != Neither
    ensures var f := After(FRESH, actions);
      Step(f, a).1 == Undefined <==> f.current == Error && !Restricted(f) && a != ByeUser
  {
    RunSound(actions);
  }

  /** ... and a BYE submitted in ERROR is what uses the restriction up. */
  lemma UndefinedIsReachable()
    ensures Answer(FRESH, [MessageServer, ByeUser, MessageUser], 2) == Undefined
  {
    var three := [MessageServer, ByeUser, MessageUser];
    assert three[..2] == [MessageServer, ByeUser];
    assert three[..2][..1] == [MessageServer];
    assert three[..2][..1][..0] == [];
    assert After(FRESH, three[..2][..1]) == Fsm(Error, Start, [ByeUser]);
    assert After(FRESH, three[..2]) == Fsm(Error, Start, [Any]);
  }

  ghost predicate AlwaysFinished(f: Fsm) {
    forall actions: seq<Action>, k: nat :: k < |actions| ==> Answer(f, actions, k) == Finished
  }

  /** In END, whatever is on the list, every later answer is OVER if and only if ANY heads it. */
  lemma EndAbsorbsExactly(f: Fsm)
    requires f.current == End && |f.expected| > 0
    ensures AlwaysFinished(f) <==> f.expected[0] == Any
  {
    if f.expected[0] == Any {
      forall actions: seq<Action>, k: nat | k < |actions| ensures Answer(f, actions, k) == Finished {
        EndStays(f, actions[..k]);
      }
    } else {
      assert Answer(f, [MessageUser], 0) == Step(f, MessageUser).1;
    }
  }

  lemma {:induction false} EndStays(f: Fsm, actions: seq<Action>)
    requires f.current == End && |f.expected| > 0 && f.expected[0] == Any
    ensures After(f, actions).current == End && After(f, actions).expected == f.expected
  {
    if actions != [] {
      EndStays(f, actions[..|actions| - 1]);
    }
  }

  /** A BYE from the server was let through. */
  predicate GotBye(actions: seq<Action>) {
    exists k :: 0 <= k < |actions| && actions[k] == ByeServer && Answer(FRESH, actions, k) == Allow
  }

  /** END with ANY expected: what the server's BYE leaves behind. */
  predicate Parted(f: Fsm) {
    f.current == End && f.expected == [Any]
  }

  lemma StepParts(f: Fsm, a: Action)
    requires Tame(f) && Submitted(a)
    ensures Parted(Step(f, a).0) <==> Parted(f) || (a == ByeServer && Step(f, a).1 == Allow)
  {
  }

  lemma GotByeLater(actions: seq<Action>)
    requires |actions| > 0
    ensures var init, last := actions[..|actions| - 1], actions[|actions| - 1];
      GotBye(actions) <==> GotBye(init) || (last == ByeServer && Step(After(FRESH, init), last).1 == Allow)
  {
    var init := actions[..|actions| - 1];
    assert forall k :: 0 <= k < |init| ==> init[..k] == actions[..k];
    assert forall k :: 0 <= k < |init| ==> Answer(FRESH, init, k) == Answer(FRESH, actions, k);
  }

  lemma {:induction false} PartedExactly(actions: seq<Action>)
    requires AllSubmitted(actions)
    ensures Parted(After(FRESH, actions)) <==> GotBye(actions)
  {
    if actions != [] {
      var init := actions[..|actions| - 1];
      assert AllSubmitted(init);
      PartedExactly(init);
      RunTame(init);
      StepParts(After(FRESH, init), actions[|actions| - 1]);
      GotByeLater(actions);
    }
  }

  /** After any submitted actions that have led to END: if the server's BYE was let through, END
      is final; if not, its ERR was, and the next user action is refused but rolls the session
      back to where the ERR met it, AUTH or OPEN, and what that state allows passes again. */
  lemma EndIsLeftExactly(actions: seq<Action>, a: Action)
    requires AllSubmitted(actions) && UserAction(a) && After(FRESH, actions).current == End
    ensures var f := After(FRESH, actions);
      var (back, r) := Step(f, a);
      if GotBye(actions) then r == Finished && back.current == End && AlwaysFinished(f)
      else
        && r == Warn && back.current == f.previous && f.previous in {Auth, Open}
        && Step(back, if f.previous == Open then MessageUser else AuthorizeUser).1 == Allow
  {
    RunTame(actions);
    PartedExactly(actions);
    EndAbsorbsExactly(After(FRESH, actions));
  }

  /** States that answer alike from now on. `previousState` does not count unless a restriction
      is armed: otherwise it is overwritten before it can be read. */
  predicate Alike(f: Fsm, g: Fsm) {
    f.current == g.current && f.expected == g.expected && (Restricted(f) ==> f.previous == g.previous)
  }

  lemma StepAlike(f: Fsm, g: Fsm, a: Action)
    requires Alike(f, g)
    ensures Alike(Step(f, a).0, Step(g, a).0) && Step(f, a).1 == Step(g, a).1
  {
  }

  /** Which restrictions the handlers ever hold each state with. */
  predicate ListFits(f: Fsm) {
    match f.current
    case Start => f.expected in [[], [Any]]
    case Auth => f.expected in [[Any], [ReplyServer, NReplyServer, ErrorServer], [AuthorizeUser]]
    case Open => f.expected == [Any]
    case Error | End => f.expected == [ByeUser]
    case Unset => false
  }

  // -------------------------------------------------------------------- no chat before login

  /** One consultation of the machine, stamped with the number of originals sent before it. */
  datatype Verdict = Verdict(after: nat, action: Action, reaction: Reaction)

  predicate Accepted(v: Verdict, a: Action) {
    v.action == a && v.reaction == Allow
  }

  /** An authorization was accepted and, later, a positive reply, both before the `limit`-th original. */
  ghost predicate LoggedIn(vs: seq<Verdict>, limit: nat) {
    exists i, j ::
      && 0 <= i < j < |vs| && Accepted(vs[i], AuthorizeUser) && Accepted(vs[j], ReplyServer)
      && vs[j].after <= limit
  }

  ghost predicate Authorized(vs: seq<Verdict>) {
    exists i :: 0 <= i < |vs| && Accepted(vs[i], AuthorizeUser)
  }

  /** The history accounts for the state the machine is in or could be rolled back to. */
  ghost predicate Earned(f: Fsm, vs: seq<Verdict>, now: nat) {
    && Sound(f)
    && (forall k :: 0 <= k < |vs| ==> vs[k].after <= now)
    && (f.current == Auth || f.previous == Auth ==> Authorized(vs))
    && (f.current == Open || f.previous == Open ==> LoggedIn(vs, now))
  }

  lemma LoggedInGrows(vs: seq<Verdict>, limit: nat, more: seq<Verdict>, later: nat)
    requires LoggedIn(vs, limit) && limit <= later
    ensures LoggedIn(vs + more, later)
  {
    var i, j :| 0 <= i < j < |vs| && Accepted(vs[i], AuthorizeUser) && Accepted(vs[j], ReplyServer)
      && vs[j].after <= limit;
    var all := vs + more;
    assert all[i] == vs[i] && all[j] == vs[j];
  }

  lemma VerdictRecorded(vs: seq<Verdict>, v: Verdict)
    ensures Authorized(vs) ==> Authorized(vs + [v])
    ensures Accepted(v, AuthorizeUser) ==> Authorized(vs + [v])
    ensures Authorized(vs) && Accepted(v, ReplyServer) ==> LoggedIn(vs + [v], v.after)
  {
    var all := vs + [v];
    assert all[|vs|] == v;
    if Authorized(vs) {
      var i :| 0 <= i < |vs| && Accepted(vs[i], AuthorizeUser);
      assert all[i] == vs[i];
    }
  }

  /** What reaching each state took. */
  lemma StepOrigins(f: Fsm, a: Action)
    requires Sound(f)
    ensures var s := Step(f, a);
      && (s.0.current == Auth || s.0.previous == Auth ==>
            f.current == Auth || f.previous == Auth || (a == AuthorizeUser && s.1 == Allow))
      && (s.0.current == Open || s.0.previous == Open ==>
            f.current == Open || f.previous == Open
            || (a == ReplyServer && s.1 == Allow && f.current == Auth))
      && (s.1 == Allow && a in {JoinUser, MessageUser} ==> f.current == Open)
  {
  }

  lemma StepEarned(f: Fsm, vs: seq<Verdict>, now: nat, a: Action)
    requires Earned(f, vs, now)
    ensures var s := Step(f, a);
      && Earned(s.0, vs + [Verdict(now, a, s.1)], now)
      && (s.1 == Allow && a in {JoinUser, MessageUser} ==> LoggedIn(vs, now))
  {
    var v := Verdict(now, a, Step(f, a).1);
    StepSound(f, a);
    StepOrigins(f, a);
    VerdictRecorded(vs, v);
    if LoggedIn(vs, now) {
      LoggedInGrows(vs, now, [v], now);
    }
  }
}
