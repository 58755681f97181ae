/**
 * The floating-point-literal classifier: `floattrans`, `chartofloatlet`
 * and `isfloat`.  A literal needs a point or an exponent; the exponent
 * letter is the lower-case `e` only.
 */
module FloatFsm {
  import opened Chars

  // States of the automaton (`enum floatstates`).
  const Start: nat := 0
  const Num: nat := 1
  const Neg: nat := 2
  const Frac: nat := 3
  const Exp: nat := 4
  const Exp1: nat := 5
  const Exp2: nat := 6
  const Gud: nat := 7
  const Bad: nat := 8

  // Letters, i.e. column indices (`enum floatletters`).
  const ZeroToNine: nat := 0
  const Minus: nat := 1
  const Point: nat := 2
  const LetE: nat := 3
  const BackZero: nat := 4
  const Other: nat := 5

  /**
   * The transition table, with the C declaration's shape: ten rows of
   * eight columns, of which only the first seven rows and six columns
   * are written out; the rest is zero.
   */
  const FloatTrans: seq<seq<nat>> := [
    [Num, Neg, Frac, Bad, Bad, Bad, 0, 0],   // fstart
    [Num, Bad, Frac, Exp, Bad, Bad, 0, 0],   // fnum
    [Neg, Bad, Frac, Gud, Bad, Bad, 0, 0],   // fneg
    [Frac, Bad, Bad, Exp, Gud, Bad, 0, 0],   // frac
    [Exp1, Exp2, Bad, Bad, Bad, Bad, 0, 0],  // exp
    [Exp1, Bad, Bad, Bad, Gud, Bad, 0, 0],   // exp1
    [Exp1, Bad, Bad, Bad, Bad, Bad, 0, 0],   // exp2
    [0, 0, 0, 0, 0, 0, 0, 0],
    [0, 0, 0, 0, 0, 0, 0, 0],
    [0, 0, 0, 0, 0, 0, 0, 0]
  ]

  /** The states that end the scan. */
  predicate Stopped(st: nat) { st == Bad || st == Gud }

  /** `chartofloatlet`: the column a character selects. */
  function Letter(c: char): (l: nat)
    ensures l <= Other
    ensures l == BackZero <==> c == Nul
    ensures l == LetE <==> c == 'e'
    ensures c == 'E' ==> l == Other
  {
    if '0' <= c <= '9' then ZeroToNine
    else if c == '-' then Minus
    else if c == '.' then Point
    else if c == 'e' then LetE
    else if c == Nul then BackZero
    else Other
  }

  /** Every live state moves to a state of the automaton, and reading the terminator stops it. */
  lemma TableClosed(st: nat, l: nat)
    requires st <= Bad && !Stopped(st) && l <= Other
    ensures FloatTrans[st][l] <= Bad
    ensures l == BackZero ==> Stopped(FloatTrans[st][l])
  {
  }

  /** The state `isfloat`'s loop ends in, started in `st` with `buf[n..]` still unread. */
  function Run(buf: seq<char>, n: nat, st: nat): (r: nat)
    requires 0 < |buf| && buf[|buf| - 1] == Nul && n <= |buf|
    requires st <= Bad && (Stopped(st) || n < |buf|)
    ensures Stopped(r)
    decreases |buf| - n
  {
    if Stopped(st) then st
    else
      TableClosed(st, Letter(buf[n]));
      Run(buf, n + 1, FloatTrans[st][Letter(buf[n])])
  }

  /** `[0-9]*`, then either the end of the text or `e` and a signed exponent. */
  predicate FracTail(t: seq<char>)
  {
    var k := DigitRun(t);
    k == |t| || (t[k] == 'e' && SignedDigits(t[k + 1..]))
  }

  /** `[0-9]*\.` followed by a fraction tail. */
  predicate PointForm(t: seq<char>)
  {
    var k := DigitRun(t);
    k < |t| && t[k] == '.' && FracTail(t[k + 1..])
  }

  /** `[0-9]*e` followed by a signed exponent. */
  predicate ExpRest(t: seq<char>)
  {
    var k := DigitRun(t);
    k < |t| && t[k] == 'e' && SignedDigits(t[k + 1..])
  }

  /** `[0-9]*e` followed by anything at all. */
  predicate EPrefix(t: seq<char>)
  {
    var k := DigitRun(t);
    k < |t| && t[k] == 'e'
  }

  /**
   * The texts `isfloat` accepts: `[0-9]*\.[0-9]*(e-?[0-9]+)?` and
   * `[0-9]+e-?[0-9]+`, and after a leading minus `[0-9]*\.[0-9]*(e-?[0-9]+)?`
   * or `[0-9]*e` with anything after that `e`.
   */
  predicate FloatLiteral(s: seq<char>)
  {
    PointForm(s) || (DigitRun(s) >= 1 && ExpRest(s))
    || (|s| >= 1 && s[0] == '-' && (PointForm(s[1..]) || EPrefix(s[1..])))
  }

  /** `isfloat`: 1 for a floating-point literal, else 0. */
  method IsFloat(s: seq<char>) returns (r: int)
    requires Nul !in s
    ensures r == (if Run(Terminated(s), 0, Start) == Gud then 1 else 0)
    ensures r == (if FloatLiteral(s) then 1 else 0)
  {
    var buf := Terminated(s);
    var n := 0;
    var st: nat := FloatTrans[Start][Letter(buf[n])];
    n := n + 1;
    while st != Bad && st != Gud
      invariant 1 <= n <= |buf|
      invariant st <= Bad && (Stopped(st) || n < |buf|)
      invariant Run(buf, n, st) == Run(buf, 0, Start)
      decreases |buf| - n
    {
      TableClosed(st, Letter(buf[n]));
      st := FloatTrans[st][Letter(buf[n])];
      n := n + 1;
    }
    r := if st == Gud then 1 else 0;
    FloatLanguage(s);
  }

  /** Dropping a leading digit leaves the digit-led shapes unchanged. */
  lemma DropDigit(t: seq<char>)
    requires |t| >= 1 && IsDigit(t[0])
    ensures DigitRun(t) == DigitRun(t[1..]) + 1
    ensures FracTail(t) == FracTail(t[1..])
    ensures PointForm(t) == PointForm(t[1..])
    ensures ExpRest(t) == ExpRest(t[1..])
    ensures EPrefix(t) == EPrefix(t[1..])
  {
    var u := t[1..];
    var k := DigitRun(u);
    if k < |u| {
      assert t[k + 1] == u[k];
      assert t[k + 2..] == u[k + 1..];
    }
  }

  /** State `exp1` accepts exactly the all-digit rests. */
  lemma {:induction false} RunExp1(s: seq<char>, n: nat)
    requires Nul !in s && n <= |s|
    ensures Run(Terminated(s), n, Exp1) == if AllDigits(s[n..]) then Gud else Bad
    decreases |s| - n
  {
    var buf := Terminated(s);
    if n < |s| {
      assert buf[n] == s[n];
      if IsDigit(s[n]) {
        RunExp1(s, n + 1);
        assert s[n..] == [s[n]] + s[n + 1..];
      } else {
        assert !AllDigits(s[n..]) by { assert s[n..][0] == s[n]; }
      }
    }
  }

  /** State `exp`, just after the `e`, accepts exactly a signed exponent. */
  lemma RunExp(s: seq<char>, n: nat)
    requires Nul !in s && n <= |s|
    ensures Run(Terminated(s), n, Exp) == if SignedDigits(s[n..]) then Gud else Bad
  {
    var buf := Terminated(s);
    var t := s[n..];
    if n < |s| {
      assert buf[n] == s[n] && t[0] == s[n];
      assert s[n..] == [s[n]] + s[n + 1..];
      if IsDigit(s[n]) {
        RunExp1(s, n + 1);
      } else if s[n] == '-' {
        assert t[1..] == s[n + 1..];
        if n + 1 < |s| {
          assert buf[n + 1] == s[n + 1] && t[1] == s[n + 1];
          assert s[n + 1..] == [s[n + 1]] + s[n + 2..];
          if IsDigit(s[n + 1]) {
            RunExp1(s, n + 2);
          }
        } else {
          assert buf[n + 1] == Nul;
          assert Run(buf, n + 2, Bad) == Bad;
        }
      }
    }
  }

  /** State `frac` accepts exactly a fraction tail. */
  lemma {:induction false} RunFrac(s: seq<char>, n: nat)
    requires Nul !in s && n <= |s|
    ensures Run(Terminated(s), n, Frac) == if FracTail(s[n..]) then Gud else Bad
    decreases |s| - n
  {
    var buf := Terminated(s);
    var t := s[n..];
    if n < |s| {
      assert buf[n] == s[n] && t[0] == s[n];
      assert t[1..] == s[n + 1..];
      if IsDigit(s[n]) {
        RunFrac(s, n + 1);
        DropDigit(t);
      } else if s[n] == 'e' {
        RunExp(s, n + 1);
      }
    }
  }

  /** State `fnum`, after at least one digit. */
  lemma {:induction false} RunNum(s: seq<char>, n: nat)
    requires Nul !in s && n <= |s|
    ensures Run(Terminated(s), n, Num) ==
      if PointForm(s[n..]) || ExpRest(s[n..]) then Gud else Bad
    decreases |s| - n
  {
    var buf := Terminated(s);
    var t := s[n..];
    if n < |s| {
      assert buf[n] == s[n] && t[0] == s[n];
      assert t[1..] == s[n + 1..];
      if IsDigit(s[n]) {
        RunNum(s, n + 1);
        DropDigit(t);
      } else if s[n] == '.' {
        RunFrac(s, n + 1);
      } else if s[n] == 'e' {
        RunExp(s, n + 1);
      }
    }
  }

  /** State `fneg`, after the leading minus: an `e` is accepted on sight. */
  lemma {:induction false} RunNeg(s: seq<char>, n: nat)
    requires Nul !in s && n <= |s|
    ensures Run(Terminated(s), n, Neg) ==
      if PointForm(s[n..]) || EPrefix(s[n..]) then Gud else Bad
    decreases |s| - n
  {
    var buf := Terminated(s);
    var t := s[n..];
    if n < |s| {
      assert buf[n] == s[n] && t[0] == s[n];
      assert t[1..] == s[n + 1..];
      if IsDigit(s[n]) {
        RunNeg(s, n + 1);
        DropDigit(t);
      } else if s[n] == '.' {
        RunFrac(s, n + 1);
      }
    }
  }

  /** The language of the float automaton. */
  lemma FloatLanguage(s: seq<char>)
    requires Nul !in s
    ensures Run(Terminated(s), 0, Start) == Gud <==> FloatLiteral(s)
  {
    var buf := Terminated(s);
    assert s[0..] == s;
    if |s| > 0 {
      assert buf[0] == s[0];
      if IsDigit(s[0]) {
        RunNum(s, 1);
        DropDigit(s);
      } else if s[0] == '-' {
        RunNeg(s, 1);
      } else if s[0] == '.' {
        RunFrac(s, 1);
      }
    }
  }
}
