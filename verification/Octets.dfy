/** Bytes, text and the two elementary codings both transports build on: splitting at a
    separator octet, and 16-bit big-endian identifiers. A C++ `char` and a `uint8_t` are the
    same eight bits here, so one type serves command lines, TCP frames and UDP datagrams. */
module Octets {

  /** One octet, written as the character with that code. Values past 255 never arise in the
      program; admitting them only makes the statements below hold of more texts. */
  type Octet = char
  type Text = seq<Octet>

  predicate IsOctet(c: Octet) {
    c as int < 256
  }

  /** `uint16_t`. */
  type MsgId = n: int | 0 <= n < 65536

  /** What `-1` becomes when stored in a `uint16_t`. */
  const NONE: MsgId := 65535

  const SP: Octet := ' '
  const NUL: Octet := '\0'
  const CRLF: Text := "\r\n"

  function Succ(id: MsgId): MsgId {
    (id + 1) % 65536
  }

  // ---------------------------------------------------------------- big-endian identifiers

  function Encode16(id: MsgId): Text {
    [(id / 256) as char, (id % 256) as char]
  }

  /** `(hi << 8) | lo` stored in a `uint16_t`. */
  function Decode16(hi: Octet, lo: Octet): MsgId {
    (hi as int * 256 + lo as int) % 65536
  }

  lemma Decode16InvertsEncode16(id: MsgId)
    ensures |Encode16(id)| == 2 && Decode16(Encode16(id)[0], Encode16(id)[1]) == id
  {
  }

  lemma Encode16InvertsDecode16(hi: Octet, lo: Octet)
    requires IsOctet(hi) && IsOctet(lo)
    ensures Encode16(Decode16(hi, lo)) == [hi, lo]
  {
    assert (hi as int * 256 + lo as int) / 256 == hi as int;
  }

  /** The first octet counts: identifiers in order are octet pairs in lexicographic order, and the
      small ones fit into the second octet. */
  lemma EncodeKeepsOrder(i: MsgId, j: MsgId)
    ensures var a, b := Encode16(i), Encode16(j);
      && IsOctet(a[0]) && IsOctet(a[1])
      && (i < j <==> a[0] < b[0] || (a[0] == b[0] && a[1] < b[1]))
      && (i < 256 ==> a[0] == NUL && a[1] as int == i)
  {
  }

  lemma DecodeKeepsOrder(a: Text, b: Text)
    requires |a| == 2 && |b| == 2 && IsOctet(a[0]) && IsOctet(a[1]) && IsOctet(b[0]) && IsOctet(b[1])
    ensures Decode16(a[0], a[1]) < Decode16(b[0], b[1]) <==> a[0] < b[0] || (a[0] == b[0] && a[1] < b[1])
    ensures Decode16(NUL, a[1]) == a[1] as int
  {
  }

  // ------------------------------------------------------------------- splitting and joining

  lemma PeelLast<T>(x: seq<T>, y: seq<T>)
    requires y != []
    ensures y == y[..|y| - 1] + [y[|y| - 1]]
    ensures x + y == x + y[..|y| - 1] + [y[|y| - 1]]
  {
  }

  predicate Free(s: Text, sep: Octet) {
    forall k :: 0 <= k < |s| ==> s[k] != sep
  }

  /** One more octet: a separator opens a new piece, anything else extends the last one. */
  function Grow(parts: seq<Text>, c: Octet, sep: Octet): (r: seq<Text>)
    requires |parts| >= 1
    ensures |r| >= 1
  {
    if c == sep then parts + [[]]
    else parts[..|parts| - 1] + [parts[|parts| - 1] + [c]]
  }

  /** The pieces of `s` between occurrences of `sep`; always at least one. */
  function Split(s: Text, sep: Octet): (parts: seq<Text>)
    ensures |parts| >= 1
  {
    if |s| == 0 then [[]]
    else Grow(Split(s[..|s| - 1], sep), s[|s| - 1], sep)
  }

  function Join(parts: seq<Text>, sep: Octet): Text
    requires |parts| >= 1
  {
    if |parts| == 1 then parts[0]
    else Join(parts[..|parts| - 1], sep) + [sep] + parts[|parts| - 1]
  }

  lemma {:induction false} JoinSplit(s: Text, sep: Octet)
    ensures Join(Split(s, sep), sep) == s
  {
    if s != [] {
      var init := s[..|s| - 1];
      var before := Split(init, sep);
      var c := s[|s| - 1];
      JoinSplit(init, sep);
      assert s == init + [c];
      if c == sep {
        assert (before + [[]])[..|before|] == before;
      } else {
        var parts := Split(s, sep);
        assert parts[..|parts| - 1] == before[..|before| - 1];
      }
    }
  }

  predicate AllFree(parts: seq<Text>, sep: Octet) {
    forall k :: 0 <= k < |parts| ==> Free(parts[k], sep)
  }

  lemma {:induction false} SplitPieces(s: Text, sep: Octet)
    ensures AllFree(Split(s, sep), sep)
  {
    if s != [] {
      SplitPieces(s[..|s| - 1], sep);
    }
  }

  lemma SplitStep(s: Text, c: Octet, sep: Octet)
    ensures Split(s + [c], sep) == Grow(Split(s, sep), c, sep)
  {
    assert (s + [c])[..|s|] == s;
  }

  lemma GrowRight(front: seq<Text>, parts: seq<Text>, c: Octet, sep: Octet)
    requires |parts| >= 1
    ensures Grow(front + parts, c, sep) == front + Grow(parts, c, sep)
  {
    assert (front + parts)[..|front + parts| - 1] == front + parts[..|parts| - 1];
  }

  /** Splitting distributes over a separator. */
  lemma {:induction false} SplitConcat(a: Text, b: Text, sep: Octet)
    ensures Split(a + [sep] + b, sep) == Split(a, sep) + Split(b, sep)
  {
    if b == [] {
      SplitStep(a, sep, sep);
      assert a + [sep] + b == a + [sep];
    } else {
      var init, c := b[..|b| - 1], b[|b| - 1];
      var whole := a + [sep] + init;
      assert Split(whole, sep) == Split(a, sep) + Split(init, sep) by { SplitConcat(a, init, sep); }
      assert Split(whole + [c], sep) == Grow(Split(whole, sep), c, sep) by { SplitStep(whole, c, sep); }
      assert Split(init + [c], sep) == Grow(Split(init, sep), c, sep) by { SplitStep(init, c, sep); }
      assert b == init + [c] && a + [sep] + b == whole + [c] by { PeelLast(a + [sep], b); }
      GrowRight(Split(a, sep), Split(init, sep), c, sep);
    }
  }

  lemma {:induction false} SplitFree(w: Text, sep: Octet)
    requires Free(w, sep)
    ensures Split(w, sep) == [w]
  {
    if w != [] {
      SplitFree(w[..|w| - 1], sep);
      assert w == w[..|w| - 1] + [w[|w| - 1]];
    }
  }

  /** Printing separator-free words and splitting the print again returns the words. */
  lemma {:induction false} SplitJoin(parts: seq<Text>, sep: Octet)
    requires |parts| >= 1 && AllFree(parts, sep)
    ensures Split(Join(parts, sep), sep) == parts
  {
    if |parts| == 1 {
      SplitFree(parts[0], sep);
    } else {
      var init, last := parts[..|parts| - 1], parts[|parts| - 1];
      var front := Join(init, sep);
      assert Split(front, sep) == init by { SplitJoin(init, sep); }
      assert Split(last, sep) == [last] by { SplitFree(last, sep); }
      assert Split(front + [sep] + last, sep) == init + [last] by { SplitConcat(front, last, sep); }
      assert init + [last] == parts;
    }
  }

  /** Peeling the first word off a join. */
  lemma {:induction false} JoinHead(w: Text, rest: seq<Text>, sep: Octet)
    requires |rest| >= 1
    ensures Join([w] + rest, sep) == w + [sep] + Join(rest, sep)
  {
    var all := [w] + rest;
    if |rest| == 1 {
      assert all[..1] == [w];
    } else {
      var init := rest[..|rest| - 1];
      JoinHead(w, init, sep);
      assert all[..|all| - 1] == [w] + init;
    }
  }

  /** The source's word splitter: a word grows octet by octet and is pushed at each space. */
  method SplitMessage(message: Text) returns (result: seq<Text>)
    ensures result == Split(message, SP)
  {
    result := [];
    var word: Text := [];
    for i := 0 to |message|
      invariant result + [word] == Split(message[..i], SP)
    {
      assert message[..i + 1][..i] == message[..i];
      var c := message[i];
      if c == SP {
        result := result + [word];
        word := [];
      } else {
        word := word + [c];
      }
    }
    assert message[..|message|] == message;
    result := result + [word];
  }

  // ------------------------------------------------------------------------- upper-casing

  function Upper(c: Octet): Octet {
    if 'a' <= c <= 'z' then (c as int - 32) as char else c
  }

  function ToUpper(s: Text): (u: Text)
    ensures |u| == |s|
    ensures forall k :: 0 <= k < |s| ==> u[k] == Upper(s[k])
  {
    seq(|s|, k requires 0 <= k < |s| => Upper(s[k]))
  }

  /** The 26 small letters, and nothing else, change. */
  lemma UpperIsAscii(c: Octet)
    ensures 97 <= c as int <= 122 ==> Upper(c) as int == c as int - 32
    ensures !(97 <= c as int <= 122) ==> Upper(c) == c
  {
  }

  /** `std::transform(..., ::toupper)`. */
  method Uppercase(s: Text) returns (u: Text)
    ensures u == ToUpper(s)
  {
    u := [];
    for i := 0 to |s|
      invariant |u| == i
      invariant forall k :: 0 <= k < i ==> u[k] == Upper(s[k])
    {
      u := u + [Upper(s[i])];
    }
  }

  /** A word that is a keyword once upper-cased has no space in it. */
  lemma KeywordIsFree(w: Text, key: Text)
    requires ToUpper(w) == key && Free(key, SP)
    ensures Free(w, SP)
  {
    forall k | 0 <= k < |w| ensures w[k] != SP {
      assert key[k] == Upper(w[k]);
    }
  }
}
