/**
 * The integer-literal classifier: `numtrans`, `chartolet` and `isnumber`.
 * Accepted forms are decimal `#?-?[0-9]+` (result 10) and hexadecimal
 * `#?0x[0-9a-f]*` (result 16); anything else gives 0.
 */
module NumberFsm {
  import opened Chars

  // States of the automaton (`enum numstates`).
  const Start: nat := 0
  const Num: nat := 1   // a leading 0 has been read
  const Dec: nat := 2
  const Hex: nat := 3
  const Neg: nat := 4
  const Pnd: nat := 5
  const Gud: nat := 6
  const Gux: nat := 7
  const Bad: nat := 8

  // Letters, i.e. column indices (`enum numletters`).
  const Zero: nat := 0
  const OneToNine: nat := 1
  const HexAToF: nat := 2
  const LetX: nat := 3
  const Pound: nat := 4
  const Minus: nat := 5
  const BackZero: nat := 6
  const Other: nat := 7

  /**
   * The transition table, with the C declaration's shape: ten rows of
   * eight columns, where rows 7 to 9 are left zero.  Row 6 repeats the
   * `neg` row; it belongs to the accepting state `gud` and is never read.
   */
  const NumTrans: seq<seq<nat>> := [
    [Num, Dec, Bad, Bad, Pnd, Neg, Bad, Bad],  // start
    [Dec, Dec, Bad, Hex, Bad, Bad, Gud, Bad],  // num
    [Dec, Dec, Bad, Bad, Bad, Bad, Gud, Bad],  // dec
    [Hex, Hex, Hex, Bad, Bad, Bad, Gux, Bad],  // hex
    [Dec, Dec, Bad, Bad, Bad, Bad, Bad, Bad],  // neg
    [Num, Dec, Bad, Bad, Bad, Neg, Bad, Bad],  // pnd
    [Dec, Dec, Bad, Bad, Bad, Bad, Bad, Bad],  // gud (unused)
    [0, 0, 0, 0, 0, 0, 0, 0],
    [0, 0, 0, 0, 0, 0, 0, 0],
    [0, 0, 0, 0, 0, 0, 0, 0]
  ]

  /** The states that end the scan. */
  predicate Stopped(st: nat) { st == Bad || st == Gud || st == Gux }

  /** `chartolet`: the column a character selects. */
  function Letter(c: char): (l: nat)
    ensures l < |NumTrans[Start]|
    ensures l == BackZero <==> c == Nul
  {
    if c == '0' then Zero
    else if '1' <= c <= '9' then OneToNine
    else if 'a' <= c <= 'f' then HexAToF
    else if c == 'x' then LetX
    else if c == '#' then Pound
    else if c == '-' then Minus
    else if c == Nul then BackZero
    else Other
  }

  /** Every live state moves to a state of the automaton, and reading the terminator stops it. */
  lemma TableClosed(st: nat, l: nat)
    requires st <= Bad && !Stopped(st) && l < 8
    ensures NumTrans[st][l] <= Bad
    ensures l == BackZero ==> Stopped(NumTrans[st][l])
  {
  }

  /**
   * The state `isnumber`'s loop ends in, started in `st` with `buf[n..]`
   * still unread.  The last character of `buf` is the terminator, so the
   * scan never runs past the buffer.
   */
  function Run(buf: seq<char>, n: nat, st: nat): (r: nat)
    requires 0 < |buf| && buf[|buf| - 1] == Nul && n <= |buf|
    requires st <= Bad && (Stopped(st) || n < |buf|)
    ensures Stopped(r)
    decreases |buf| - n
  {
    if Stopped(st) then st
    else
      TableClosed(st, Letter(buf[n]));
      Run(buf, n + 1, NumTrans[st][Letter(buf[n])])
  }

  /** The value `isnumber` returns for a final state. */
  function Radix(st: nat): (r: int)
  {
    if st == Gud then 10 else if st == Gux then 16 else 0
  }

  /** `0x[0-9a-f]*` */
  predicate HexDigits(t: seq<char>)
  {
    |t| >= 2 && t[0] == '0' && t[1] == 'x' && AllHexDigits(t[2..])
  }

  /** A decimal literal, optionally behind an immediate-value `#`. */
  predicate DecimalLiteral(s: seq<char>)
  {
    SignedDigits(s) || (|s| >= 1 && s[0] == '#' && SignedDigits(s[1..]))
  }

  /** A hexadecimal literal, optionally behind an immediate-value `#`. */
  predicate HexLiteral(s: seq<char>)
  {
    HexDigits(s) || (|s| >= 1 && s[0] == '#' && HexDigits(s[1..]))
  }

  /** `isnumber`: 10 for a decimal literal, 16 for a hexadecimal one, else 0. */
  method IsNumber(s: seq<char>) returns (radix: int)
    requires Nul !in s
    ensures radix == Radix(Run(Terminated(s), 0, Start))
    ensures radix == (if DecimalLiteral(s) then 10 else if HexLiteral(s) then 16 else 0)
  {
    var buf := Terminated(s);
    var n := 0;
    var st: nat := NumTrans[Start][Letter(buf[n])];
    n := n + 1;
    while st != Bad && st != Gud && st != Gux
      invariant 1 <= n <= |buf|
      invariant st <= Bad && (Stopped(st) || n < |buf|)
      invariant Run(buf, n, st) == Run(buf, 0, Start)
      decreases |buf| - n
    {
      TableClosed(st, Letter(buf[n]));
      st := NumTrans[st][Letter(buf[n])];
      n := n + 1;
    }
    radix := if st == Gud then 10 else if st == Gux then 16 else 0;
    NumberLanguage(s);
  }

  /** In state `dec` the rest must be all digits. */
  lemma {:induction false} RunDec(s: seq<char>, n: nat)
    requires Nul !in s && n <= |s|
    ensures Run(Terminated(s), n, Dec) == if AllDigits(s[n..]) then Gud else Bad
    decreases |s| - n
  {
    var buf := Terminated(s);
    if n < |s| {
      assert buf[n] == s[n];
      if IsDigit(s[n]) {
        RunDec(s, n + 1);
        assert s[n..] == [s[n]] + s[n + 1..];
      } else {
        assert !AllDigits(s[n..]) by { assert s[n..][0] == s[n]; }
      }
    }
  }

  /** In state `hex` the rest must be all hexadecimal digits. */
  lemma {:induction false} RunHex(s: seq<char>, n: nat)
    requires Nul !in s && n <= |s|
    ensures Run(Terminated(s), n, Hex) == if AllHexDigits(s[n..]) then Gux else Bad
    decreases |s| - n
  {
    var buf := Terminated(s);
    if n < |s| {
      assert buf[n] == s[n];
      if IsHexDigit(s[n]) {
        RunHex(s, n + 1);
        assert s[n..] == [s[n]] + s[n + 1..];
      } else {
        assert !AllHexDigits(s[n..]) by { assert s[n..][0] == s[n]; }
      }
    }
  }

  /** After a sign, one or more digits must follow. */
  lemma RunNeg(s: seq<char>, n: nat)
    requires Nul !in s && n <= |s|
    ensures Run(Terminated(s), n, Neg) == if Digits1(s[n..]) then Gud else Bad
  {
    var buf := Terminated(s);
    if n < |s| {
      assert buf[n] == s[n];
      assert s[n..] == [s[n]] + s[n + 1..];
      if IsDigit(s[n]) {
        RunDec(s, n + 1);
      }
    }
  }

  /** After a leading 0: more digits, or `x` and hexadecimal digits, or nothing. */
  lemma RunNum(s: seq<char>, n: nat)
    requires Nul !in s && n <= |s|
    ensures Run(Terminated(s), n, Num) ==
      if AllDigits(s[n..]) then Gud
      else if n < |s| && s[n] == 'x' && AllHexDigits(s[n + 1..]) then Gux
      else Bad
  {
    var buf := Terminated(s);
    if n < |s| {
      assert buf[n] == s[n];
      assert s[n..] == [s[n]] + s[n + 1..];
      if IsDigit(s[n]) {
        RunDec(s, n + 1);
      } else if s[n] == 'x' {
        RunHex(s, n + 1);
      }
    }
  }

  /** From a state that reads a literal's first character (`start`, or `pnd` after `#`). */
  lemma RunBody(s: seq<char>, n: nat)
    requires Nul !in s && n <= |s|
    ensures Run(Terminated(s), n, Pnd) ==
      if SignedDigits(s[n..]) then Gud else if HexDigits(s[n..]) then Gux else Bad
  {
    var buf := Terminated(s);
    var t := s[n..];
    if n < |s| {
      assert buf[n] == s[n] && t[0] == s[n];
      assert t[1..] == s[n + 1..];
      if s[n] == '0' {
        RunNum(s, n + 1);
        if n + 1 < |s| {
          assert t[1] == s[n + 1];
          assert t[2..] == s[n + 2..];
          assert s[n + 1..] == [s[n + 1]] + s[n + 2..];
        }
      } else if IsDigit(s[n]) {
        RunDec(s, n + 1);
      } else if s[n] == '-' {
        RunNeg(s, n + 1);
      }
    }
  }

  /** The language of the number automaton. */
  lemma NumberLanguage(s: seq<char>)
    requires Nul !in s
    ensures Radix(Run(Terminated(s), 0, Start)) ==
      if DecimalLiteral(s) then 10 else if HexLiteral(s) then 16 else 0
  {
    var buf := Terminated(s);
    assert s[0..] == s;
    if |s| > 0 {
      assert buf[0] == s[0];
      if s[0] == '#' {
        RunBody(s, 1);
      } else {
        RunBody(s, 0);
      }
    }
  }

  /** No text is both a decimal and a hexadecimal literal. */
  lemma DecimalNotHex(s: seq<char>)
    ensures !(DecimalLiteral(s) && HexLiteral(s))
  {
    if HexDigits(s) { assert !IsDigit(s[1]) && s[1..][0] == s[1]; }
    if |s| >= 1 && HexDigits(s[1..]) { assert s[1..][1] == s[2]; }
  }
}
