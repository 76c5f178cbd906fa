/** The lexical rules both transports apply, in the C locale. The display-name rule admits the
    space (`isprint` does), although the grammar it stands for, VCHAR of RFC 5234, does not. */
module Grammar {
  import opened Octets

  predicate Printable(c: Octet) {
    ' ' <= c <= '~'
  }

  predicate WordOctet(c: Octet) {
    'a' <= c <= 'z' || 'A' <= c <= 'Z' || '0' <= c <= '9' || c == '-'
  }

  predicate ValidWord(s: Text, limit: nat) {
    1 <= |s| <= limit && forall k :: 0 <= k < |s| ==> WordOctet(s[k])
  }

  predicate ValidId(s: Text) { ValidWord(s, 20) }

  predicate ValidSecret(s: Text) { ValidWord(s, 128) }

  predicate AllPrintable(s: Text) {
    forall k :: 0 <= k < |s| ==> Printable(s[k])
  }

  predicate ValidContent(s: Text) { 1 <= |s| <= 1400 && AllPrintable(s) }

  predicate ValidName(s: Text) { 1 <= |s| <= 20 && AllPrintable(s) }

  method ValidateWord(s: Text, limit: nat) returns (ok: bool)
    ensures ok <==> ValidWord(s, limit)
  {
    if |s| < 1 || |s| > limit {
      return false;
    }
    for i := 0 to |s|
      invariant forall k :: 0 <= k < i ==> WordOctet(s[k])
    {
      if !WordOctet(s[i]) {
        return false;
      }
    }
    return true;
  }

  method ValidateContent(s: Text) returns (ok: bool)
    ensures ok <==> ValidContent(s)
  {
    if |s| < 1 || |s| > 1400 {
      return false;
    }
    for i := 0 to |s|
      invariant forall k :: 0 <= k < i ==> Printable(s[k])
    {
      if !Printable(s[i]) && s[i] != SP {
        return false;
      }
    }
    return true;
  }

  method ValidateName(s: Text) returns (ok: bool)
    ensures ok <==> ValidName(s)
  {
    if |s| < 1 || |s| > 20 {
      return false;
    }
    for i := 0 to |s|
      invariant forall k :: 0 <= k < i ==> Printable(s[k])
    {
      if !Printable(s[i]) {
        return false;
      }
    }
    return true;
  }

  /** The alphabets by octet value: %x20-7E is printable, and a word has ALPHA, DIGIT and %x2D. */
  lemma Alphabets(c: Octet)
    ensures Printable(c) <==> 0x20 <= c as int <= 0x7E
    ensures WordOctet(c) <==>
      0x41 <= c as int <= 0x5A || 0x61 <= c as int <= 0x7A || 0x30 <= c as int <= 0x39 || c as int == 0x2D
  {
  }

  /** How long each may be, whatever it is made of. */
  lemma Lengths(c: Octet, n: nat)
    requires WordOctet(c)
    ensures var s := seq(n, _ => c);
      && (ValidId(s) <==> 1 <= n <= 20) && (ValidSecret(s) <==> 1 <= n <= 128)
      && (ValidName(s) <==> 1 <= n <= 20) && (ValidContent(s) <==> 1 <= n <= 1400)
  {
  }

  lemma WordsAreClean(s: Text, limit: nat)
    requires ValidWord(s, limit)
    ensures Free(s, SP) && Free(s, NUL) && AllPrintable(s)
  {
  }

  lemma PrintableIsClean(s: Text)
    requires AllPrintable(s)
    ensures Free(s, NUL) && Free(s, '\r') && Free(s, '\n')
  {
  }

  /** Upper-casing a name neither makes it valid nor spoils it. */
  lemma UpperKeepsNames(s: Text)
    ensures ValidName(ToUpper(s)) <==> ValidName(s)
  {
    forall k | 0 <= k < |s| ensures Printable(ToUpper(s)[k]) <==> Printable(s[k]) {
      assert ToUpper(s)[k] == Upper(s[k]);
    }
  }
}
