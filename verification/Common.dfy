/** What the two transports and the event loop have in common. */
module Common {
  import opened Octets
  import opened Grammar

  // ---------------------------------------------------------------------------- the wording

  const BAD_FORM := "Invalid message format"
  const BAD_NAME := "Invalid display name format"
  const BAD_COMMAND := "Invalid command"
  const NO_AUTH := "You are not authorized to authorize at this state!"
  const NO_JOIN := "You are not authorized to join at this state!"
  const NO_MSG := "You are not authorized to send a message at this state!"

  /** `Indeterminate` is what a call leaves behind when control runs off its end, or any other
      value outside the enumeration. */
  datatype ClientState =
    | WaitingForConfirmation | WaitingForReply | ReadyForInput | Closed | Indeterminate

  datatype Kind = Authorize | JoinChannel | Chat | Failure | Farewell

  function Map<S, T>(f: S -> T, s: seq<S>): (r: seq<T>)
    ensures |r| == |s| && forall k :: 0 <= k < |s| ==> r[k] == f(s[k])
  {
    seq(|s|, k requires 0 <= k < |s| => f(s[k]))
  }

  // ------------------------------------------------------------------------- the user's line

  function FirstSpace(s: Text): nat {
    if |s| == 0 || s[0] == SP then 0 else 1 + FirstSpace(s[1..])
  }

  /** `substr(0, find(' '))`. */
  function Command(line: Text): Text {
    var n := FirstSpace(line);
    if n < |line| then line[..n] else line
  }

  /** `substr(find(' ') + 1)`, which is the whole line when there is no space. */
  function Argument(line: Text): Text {
    var n := FirstSpace(line);
    if n < |line| then line[n + 1..] else line
  }

  /** The line is its command, a space and its argument; without a space it is both. */
  lemma {:induction false} CommandAndArgument(line: Text)
    ensures Free(Command(line), SP)
    ensures if Free(line, SP) then Command(line) == line == Argument(line)
            else line == Command(line) + [SP] + Argument(line)
  {
    SpaceFound(line);
    var n := FirstSpace(line);
    if n < |line| {
      assert line == line[..n] + [line[n]] + line[n + 1..];
    }
  }

  lemma {:induction false} SpaceFound(s: Text)
    ensures FirstSpace(s) <= |s|
    ensures FirstSpace(s) < |s| ==> s[FirstSpace(s)] == SP
    ensures Free(s[..FirstSpace(s)], SP)
  {
    if |s| > 0 && s[0] != SP {
      SpaceFound(s[1..]);
      var n := FirstSpace(s[1..]);
      assert forall k :: 1 <= k < n + 1 ==> s[k] == s[1..][..n][k - 1];
    }
  }

  lemma {:induction false} FirstSpaceAfter(w: Text, rest: Text)
    requires Free(w, SP)
    ensures FirstSpace(w + [SP] + rest) == |w|
  {
    if |w| > 0 {
      FirstSpaceAfter(w[1..], rest);
      assert (w + [SP] + rest)[1..] == w[1..] + [SP] + rest;
    }
  }

  /** A word, a space and anything read back as command and argument. */
  lemma CommandOf(w: Text, rest: Text)
    requires Free(w, SP)
    ensures Command(w + [SP] + rest) == w && Argument(w + [SP] + rest) == rest
  {
    FirstSpaceAfter(w, rest);
  }

  predicate ValidCredentials(parts: seq<Text>) {
    |parts| == 3 && ValidId(parts[0]) && ValidName(parts[2]) && ValidSecret(parts[1])
  }

  // ------------------------------------------------------------------------------ the loop

  /** Standard input is polled. */
  predicate Listening(state: ClientState) {
    state !in {WaitingForConfirmation, WaitingForReply, Closed}
  }

  function Settle(r: ClientState, stray: ClientState): ClientState {
    if r == Indeterminate then stray else r
  }
}
