/** Strings as the C++ streams see them: blanks, tokens, lines, decimal numbers and
    the lexicographic order of std::string. */
module Text {

  /** The characters isspace() accepts in the "C" locale. */
  predicate IsSpace(c: char) {
    c == ' ' || c == '\t' || c == '\n' || c == '\r' || c == '\U{000B}' || c == '\U{000C}'
  }

  /** A node name: one token of an input stream. */
  predicate IsName(s: string) {
    s != "" && forall i | 0 <= i < |s| :: !IsSpace(s[i])
  }

  /** A text that getline() gives back whole. */
  predicate IsLine(s: string) {
    forall i | 0 <= i < |s| :: s[i] != '\n'
  }

  predicate IsDigit(c: char) {
    '0' <= c <= '9'
  }

  function Digit(d: nat): (c: char)
    requires d < 10
    ensures IsDigit(c) && DigitValue(c) == d
  {
    '0' + d as char
  }

  function DigitValue(c: char): (d: nat)
    requires IsDigit(c)
    ensures d < 10
  {
    c as int - '0' as int
  }

  /** What an output stream writes for an unsigned number. */
  function PrintNat(n: nat): (s: string)
    ensures s != "" && forall i | 0 <= i < |s| :: IsDigit(s[i])
  {
    if n < 10 then [Digit(n)] else PrintNat(n / 10) + [Digit(n % 10)]
  }

  function ParseDigits(s: string): (n: nat)
    requires forall i | 0 <= i < |s| :: IsDigit(s[i])
  {
    if s == "" then 0 else ParseDigits(s[..|s| - 1]) * 10 + DigitValue(s[|s| - 1])
  }

  lemma {:induction false} PrintParseNat(n: nat)
    ensures ParseDigits(PrintNat(n)) == n
  {
    if n < 10 {
      assert PrintNat(n)[..0] == "";
    } else {
      PrintParseNat(n / 10);
      assert PrintNat(n)[..|PrintNat(n)| - 1] == PrintNat(n / 10);
    }
  }

  // ----- reading from the front of a stream -----

  function SkipSpaces(s: string): (r: string)
    ensures |r| <= |s|
    ensures r != "" ==> !IsSpace(r[0])
  {
    if s != "" && IsSpace(s[0]) then SkipSpaces(s[1..]) else s
  }

  /** The longest prefix without blanks. */
  function TokenLength(s: string): (k: nat)
    ensures k <= |s|
    ensures forall i | 0 <= i < k :: !IsSpace(s[i])
    ensures k < |s| ==> IsSpace(s[k])
  {
    if s == "" || IsSpace(s[0]) then 0 else 1 + TokenLength(s[1..])
  }

  function DigitsLength(s: string): (k: nat)
    ensures k <= |s|
    ensures forall i | 0 <= i < k :: IsDigit(s[i])
    ensures k < |s| ==> !IsDigit(s[k])
  {
    if s == "" || !IsDigit(s[0]) then 0 else 1 + DigitsLength(s[1..])
  }

  function LineLength(s: string): (k: nat)
    ensures k <= |s|
    ensures forall i | 0 <= i < k :: s[i] != '\n'
    ensures k < |s| ==> s[k] == '\n'
  {
    if s == "" || s[0] == '\n' then 0 else 1 + LineLength(s[1..])
  }

  lemma TokenThenSpace(t: string, rest: string)
    requires IsName(t)
    requires rest == "" || IsSpace(rest[0])
    ensures SkipSpaces(t + rest) == t + rest
    ensures TokenLength(t + rest) == |t|
  {
    var s := t + rest;
    assert forall i | 0 <= i < |t| :: s[i] == t[i];
    assert rest != "" ==> s[|t|] == rest[0];
  }

  lemma DigitsThenSpace(t: string, rest: string)
    requires t != "" && forall i | 0 <= i < |t| :: IsDigit(t[i])
    requires rest == "" || IsSpace(rest[0])
    ensures SkipSpaces(t + rest) == t + rest
    ensures DigitsLength(t + rest) == |t|
  {
    var s := t + rest;
    assert forall i | 0 <= i < |t| :: s[i] == t[i];
    assert rest != "" ==> s[|t|] == rest[0];
  }

  lemma LineThenNewline(t: string, rest: string)
    requires IsLine(t)
    requires rest != "" && rest[0] == '\n'
    ensures LineLength(t + rest) == |t|
  {
    var s := t + rest;
    assert forall i | 0 <= i < |t| :: s[i] == t[i];
    assert rest != "" ==> s[|t|] == rest[0];
  }

  // ----- std::string order -----

  /** a < b as std::string compares them. */
  predicate Less(a: string, b: string) {
    if b == "" then false
    else if a == "" then true
    else a[0] < b[0] || (a[0] == b[0] && Less(a[1..], b[1..]))
  }

  lemma {:induction false} LessIrreflexive(a: string)
    ensures !Less(a, a)
  {
    if a == "" {
    } else {
      LessIrreflexive(a[1..]);
    }
  }

  lemma {:induction false} LessTransitive(a: string, b: string, c: string)
    requires Less(a, b) && Less(b, c)
    ensures Less(a, c)
  {
    if a != "" && a[0] == b[0] && b[0] == c[0] {
      LessTransitive(a[1..], b[1..], c[1..]);
    }
  }

  lemma {:induction false} LessTotal(a: string, b: string)
    ensures Less(a, b) || a == b || Less(b, a)
  {
    if a != "" && b != "" && a[0] == b[0] {
      LessTotal(a[1..], b[1..]);
      if a[1..] == b[1..] {
        assert a == [a[0]] + a[1..] && b == [b[0]] + b[1..];
      }
    }
  }

  /** At position k the texts differ for the first time: a ends there, or has the smaller character. */
  predicate LessAt(a: string, b: string, k: nat) {
    k <= |a| && k < |b| && a[..k] == b[..k] && (k == |a| || a[k] < b[k])
  }

  /** The order is that of the first difference. */
  lemma {:induction false} LessIsLexicographic(a: string, b: string)
    ensures Less(a, b) <==> exists k: nat :: LessAt(a, b, k)
  {
    if a == "" || b == "" {
      assert b != "" ==> LessAt(a, b, 0);
    } else {
      LessIsLexicographic(a[1..], b[1..]);
      if k: nat :| LessAt(a, b, k) && k > 0 {
        assert a[1..][..k - 1] == a[..k][1..] && b[1..][..k - 1] == b[..k][1..];
        assert a[0] == a[..k][0] == b[0] && LessAt(a[1..], b[1..], k - 1);
      }
      if k: nat :| LessAt(a[1..], b[1..], k) && a[0] == b[0] {
        assert a[..k + 1] == [a[0]] + a[1..][..k] && b[..k + 1] == [b[0]] + b[1..][..k];
        assert LessAt(a, b, k + 1);
      }
      if a[0] < b[0] { assert LessAt(a, b, 0); }
    }
  }

  /** No number is written with a leading zero. */
  lemma {:induction false} NoLeadingZero(n: nat)
    ensures |PrintNat(n)| > 1 ==> PrintNat(n)[0] != '0'
  {
    if n < 10 {
    } else {
      NoLeadingZero(n / 10);
      if n / 10 < 10 { assert PrintNat(n / 10) == [Digit(n / 10)]; }
    }
  }
}
