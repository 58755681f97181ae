/** Character classes shared by the four literal classifiers of chasm2/fsms.c. */
module Chars {

  /** The C string terminator. */
  const Nul: char := '\0'

  predicate IsDigit(c: char) { '0' <= c <= '9' }

  predicate IsLower(c: char) { 'a' <= c <= 'z' }

  /** A digit of a lower-case hexadecimal numeral. */
  predicate IsHexDigit(c: char) { IsDigit(c) || 'a' <= c <= 'f' }

  predicate AllDigits(s: seq<char>) { forall i :: 0 <= i < |s| ==> IsDigit(s[i]) }

  predicate AllHexDigits(s: seq<char>) { forall i :: 0 <= i < |s| ==> IsHexDigit(s[i]) }

  /** One or more decimal digits: `[0-9]+`. */
  predicate Digits1(s: seq<char>) { |s| >= 1 && AllDigits(s) }

  /** `-?[0-9]+` */
  predicate SignedDigits(t: seq<char>)
  {
    Digits1(t) || (|t| >= 1 && t[0] == '-' && Digits1(t[1..]))
  }

  /** The length of the longest run of decimal digits at the head of `s`. */
  function DigitRun(s: seq<char>): (k: nat)
    ensures k <= |s|
    ensures AllDigits(s[..k])
    ensures k < |s| ==> !IsDigit(s[k])
  {
    if s == [] || !IsDigit(s[0]) then 0
    else
      var k := 1 + DigitRun(s[1..]);
      assert s[..k] == [s[0]] + s[1..][..k - 1];
      k
  }

  /** The buffer a classifier scans: the text followed by its terminator. */
  function Terminated(s: seq<char>): (buf: seq<char>)
    ensures |buf| == |s| + 1 && buf[|s|] == Nul && buf[..|s|] == s
  {
    s + [Nul]
  }
}
