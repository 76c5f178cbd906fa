/** Cutting a byte stream into frames at CR LF, and why the cut does not depend on how the stream
    arrives. */
module Framing {
  import opened Octets

  /** The position of the first CR LF, or the length when there is none: `find("\r\n")`. */
  function First(s: Text): nat {
    if |s| < 2 then |s|
    else if s[0] == '\r' && s[1] == '\n' then 0
    else 1 + First(s[1..])
  }

  predicate HasFrame(s: Text) {
    First(s) < |s|
  }

  lemma {:induction false} FirstSpec(s: Text)
    ensures First(s) <= |s|
    ensures HasFrame(s) ==> First(s) + 2 <= |s| && s[First(s)] == '\r' && s[First(s) + 1] == '\n'
    ensures forall k :: 0 <= k < First(s) && k + 1 < |s| ==> !(s[k] == '\r' && s[k + 1] == '\n')
  {
    if |s| >= 2 && !(s[0] == '\r' && s[1] == '\n') {
      FirstSpec(s[1..]);
      forall k | 0 <= k < First(s) && k + 1 < |s| ensures !(s[k] == '\r' && s[k + 1] == '\n') {
        if k > 0 {
          assert s[k] == s[1..][k - 1] && s[k + 1] == s[1..][k];
        }
      }
    }
  }

  /** The frame in front, and what is left once it and its CR LF are gone. */
  function Head(s: Text): Text
    requires HasFrame(s)
  {
    FirstSpec(s);
    s[..First(s)]
  }

  function Rest(s: Text): (r: Text)
    requires HasFrame(s)
    ensures |r| < |s|
  {
    FirstSpec(s);
    s[First(s) + 2..]
  }

  /** The frames of a stream, and the unfinished piece after the last of them. */
  function Frames(s: Text): seq<Text>
    decreases |s|
  {
    if HasFrame(s) then [Head(s)] + Frames(Rest(s)) else []
  }

  function Unfinished(s: Text): Text
    decreases |s|
  {
    if HasFrame(s) then Unfinished(Rest(s)) else s
  }

  /** The stream frames were cut from. */
  function Wire(frames: seq<Text>): Text {
    if |frames| == 0 then [] else frames[0] + CRLF + Wire(frames[1..])
  }

  predicate Whole(frame: Text) {
    !HasFrame(frame)
  }

  predicate AllWhole(frames: seq<Text>) {
    forall k :: 0 <= k < |frames| ==> Whole(frames[k])
  }

  lemma HeadWhole(s: Text)
    requires HasFrame(s)
    ensures Whole(Head(s)) && s == Head(s) + CRLF + Rest(s)
  {
    FirstSpec(s);
    var f := Head(s);
    FirstSpec(f);
    assert forall k :: 0 <= k < |f| ==> f[k] == s[k];
  }

  /** A CR at the end of a frame does not pair up with the CR LF that ends it. */
  lemma {:induction false} FirstOfFrame(frame: Text, rest: Text)
    requires Whole(frame)
    ensures First(frame + CRLF + rest) == |frame|
  {
    var s := frame + CRLF + rest;
    FirstSpec(s);
    FirstSpec(frame);
    assert s[|frame|] == '\r' && s[|frame| + 1] == '\n';
    assert forall k :: 0 <= k < |frame| ==> s[k] == frame[k];
  }

  lemma FrameInFront(frame: Text, rest: Text)
    requires Whole(frame)
    ensures var s := frame + CRLF + rest; HasFrame(s) && Head(s) == frame && Rest(s) == rest
  {
    FirstOfFrame(frame, rest);
  }

  lemma WirePeel(frames: seq<Text>, tail: Text)
    requires |frames| > 0
    ensures Wire(frames) + tail == frames[0] + CRLF + (Wire(frames[1..]) + tail)
  {
  }

  lemma {:induction false} WireConcat(a: seq<Text>, b: seq<Text>)
    ensures Wire(a + b) == Wire(a) + Wire(b)
  {
    if |a| == 0 {
      assert a + b == b;
    } else {
      WireConcat(a[1..], b);
      assert (a + b)[1..] == a[1..] + b;
      WirePeel(a, Wire(b));
    }
  }

  /** Cutting what whole frames were joined into returns them, and leaves any tail to its own
      cutting: this is the independence from how the tail arrived. */
  lemma {:induction false} CutWire(frames: seq<Text>, tail: Text)
    requires AllWhole(frames)
    ensures Frames(Wire(frames) + tail) == frames + Frames(tail)
    ensures Unfinished(Wire(frames) + tail) == Unfinished(tail)
  {
    if |frames| == 0 {
      assert Wire(frames) + tail == tail;
    } else {
      var more := Wire(frames[1..]) + tail;
      CutWire(frames[1..], tail);
      assert Wire(frames) + tail == frames[0] + CRLF + more by { WirePeel(frames, tail); }
      FramesStep(frames[0], more);
      PutBack(frames, Frames(tail));
    }
  }

  lemma PutBack<T>(a: seq<T>, b: seq<T>)
    requires |a| > 0
    ensures [a[0]] + (a[1..] + b) == a + b
  {
  }

  lemma FramesStep(frame: Text, more: Text)
    requires Whole(frame)
    ensures Frames(frame + CRLF + more) == [frame] + Frames(more)
    ensures Unfinished(frame + CRLF + more) == Unfinished(more)
  {
    FrameInFront(frame, more);
  }

  /** Cutting loses nothing. */
  lemma {:induction false} WireOfFrames(s: Text)
    ensures Wire(Frames(s)) + Unfinished(s) == s && AllWhole(Frames(s)) && Whole(Unfinished(s))
    decreases |s|
  {
    if HasFrame(s) {
      HeadWhole(s);
      WireOfFrames(Rest(s));
      WirePeel(Frames(s), Unfinished(s));
      assert Frames(s)[1..] == Frames(Rest(s));
    } else {
      assert Wire(Frames(s)) == [];
    }
  }

  /** `buffer.find("\r\n")`. */
  method FindCrlf(buffer: Text) returns (pos: nat)
    ensures pos == First(buffer)
  {
    pos := 0;
    while pos + 1 < |buffer| && !(buffer[pos] == '\r' && buffer[pos + 1] == '\n')
      invariant pos <= |buffer|
      invariant First(buffer) == pos + First(buffer[pos..])
    {
      assert buffer[pos..][1..] == buffer[pos + 1..];
      pos := pos + 1;
    }
    if pos + 1 >= |buffer| {
      pos := |buffer|;
    }
  }
}
