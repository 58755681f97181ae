/**
 * The register classifier: `regtrans`, `regchartolet` and `isreg`.
 * The automaton accepts the names `r0` to `r15`.
 */
module RegisterFsm {
  import opened Chars

  // States of the automaton (`enum regstates`).
  const Start: nat := 0
  const RegG: nat := 1   // `r` has been read
  const Reg0: nat := 2   // a complete one-digit number
  const Reg1: nat := 3   // `1`, which may start r10 to r15
  const Reg2: nat := 4   // a complete two-digit number
  const Gud: nat := 5
  const Bad: nat := 6

  // Letters, i.e. column indices (`enum regletters`).
  const LetR: nat := 0
  const Let0: nat := 1
  const Let1: nat := 2
  const Let2To5: nat := 3
  const Let6To9: nat := 4
  const BackZero: nat := 5
  const Other: nat := 6

  /** The transition table: ten rows of seven columns, rows 5 to 9 zero. */
  const RegTrans: seq<seq<nat>> := [
    [RegG, Bad, Bad, Bad, Bad, Bad, Bad],     // regstart
    [Bad, Reg0, Reg1, Reg0, Reg0, Bad, Bad],  // regg
    [Bad, Bad, Bad, Bad, Bad, Gud, Bad],      // reg0
    [Bad, Reg2, Reg2, Reg2, Bad, Gud, Bad],   // reg1
    [Bad, Bad, Bad, Bad, Bad, Gud, Bad],      // reg2
    [0, 0, 0, 0, 0, 0, 0],
    [0, 0, 0, 0, 0, 0, 0],
    [0, 0, 0, 0, 0, 0, 0],
    [0, 0, 0, 0, 0, 0, 0],
    [0, 0, 0, 0, 0, 0, 0]
  ]

  /** The states that end the scan. */
  predicate Stopped(st: nat) { st == Bad || st == Gud }

  /** `regchartolet`: the column a character selects. */
  function Letter(c: char): (l: nat)
    ensures l <= Other
    ensures l == BackZero <==> c == Nul
  {
    if c == 'r' then LetR
    else if c == '0' then Let0
    else if c == '1' then Let1
    else if '2' <= c <= '5' then Let2To5
    else if '6' <= c <= '9' then Let6To9
    else if c == Nul then BackZero
    else Other
  }

  /** Every live state moves to a state of the automaton, and reading the terminator stops it. */
  lemma TableClosed(st: nat, l: nat)
    requires st <= Bad && !Stopped(st) && l <= Other
    ensures RegTrans[st][l] <= Bad
    ensures l == BackZero ==> Stopped(RegTrans[st][l])
  {
  }

  /** The state `isreg`'s loop ends in, started in `st` with `buf[n..]` still unread. */
  function Run(buf: seq<char>, n: nat, st: nat): (r: nat)
    requires 0 < |buf| && buf[|buf| - 1] == Nul && n <= |buf|
    requires st <= Bad && (Stopped(st) || n < |buf|)
    ensures Stopped(r)
    decreases |buf| - n
  {
    if Stopped(st) then st
    else
      TableClosed(st, Letter(buf[n]));
      Run(buf, n + 1, RegTrans[st][Letter(buf[n])])
  }

  /** The decimal numeral of `k`, without leading zeros. */
  function Numeral(k: nat): (d: seq<char>)
    requires k < 100
    ensures 1 <= |d| <= 2 && (|d| == 2 ==> d[0] != '0')
  {
    if k < 10 then ['0' + k as char] else ['0' + (k / 10) as char, '0' + (k % 10) as char]
  }

  /** `r0` to `r9`, or `r10` to `r15`, spelled out character by character. */
  predicate RegisterName(s: seq<char>)
  {
    (|s| == 2 && s[0] == 'r' && IsDigit(s[1]))
    || (|s| == 3 && s[0] == 'r' && s[1] == '1' && '0' <= s[2] <= '5')
  }

  /** The register names are exactly `r` followed by the numeral of 0 to 15. */
  lemma RegisterNumbers(s: seq<char>)
    ensures RegisterName(s) <==> exists k :: 0 <= k < 16 && s == ['r'] + Numeral(k)
  {
    if RegisterName(s) {
      var k := if |s| == 2 then (s[1] - '0') as nat else 10 + (s[2] - '0') as nat;
      assert s == ['r'] + Numeral(k);
    }
  }

  /** `isreg`: 1 for a register name, else 0. */
  method IsReg(s: seq<char>) returns (r: int)
    requires Nul !in s
    ensures r == (if Run(Terminated(s), 0, Start) == Gud then 1 else 0)
    ensures r == (if RegisterName(s) then 1 else 0)
  {
    var buf := Terminated(s);
    var n := 0;
    var st: nat := RegTrans[Start][Letter(buf[n])];
    n := n + 1;
    while st != Bad && st != Gud
      invariant 1 <= n <= |buf|
      invariant st <= Bad && (Stopped(st) || n < |buf|)
      invariant Run(buf, n, st) == Run(buf, 0, Start)
      decreases |buf| - n
    {
      TableClosed(st, Letter(buf[n]));
      st := RegTrans[st][Letter(buf[n])];
      n := n + 1;
    }
    r := if st == Gud then 1 else 0;
    RegisterLanguage(s);
  }

  /** States `reg0` and `reg2` accept only the end of the text. */
  lemma RunComplete(s: seq<char>, n: nat, st: nat)
    requires Nul !in s && n <= |s| && (st == Reg0 || st == Reg2)
    ensures Run(Terminated(s), n, st) == if n == |s| then Gud else Bad
  {
    var buf := Terminated(s);
    assert buf[n] == if n < |s| then s[n] else Nul;
  }

  /** State `reg1` accepts the end of the text or one more digit from 0 to 5. */
  lemma RunReg1(s: seq<char>, n: nat)
    requires Nul !in s && n <= |s|
    ensures Run(Terminated(s), n, Reg1) ==
      if n == |s| || (n + 1 == |s| && '0' <= s[n] <= '5') then Gud else Bad
  {
    var buf := Terminated(s);
    assert buf[n] == if n < |s| then s[n] else Nul;
    if n < |s| && '0' <= s[n] <= '5' {
      RunComplete(s, n + 1, Reg2);
    }
  }

  /** State `regg`, after the `r`: a one-digit number, or `1` and a second digit. */
  lemma RunRegG(s: seq<char>, n: nat)
    requires Nul !in s && n <= |s|
    ensures Run(Terminated(s), n, RegG) ==
      if (n + 1 == |s| && IsDigit(s[n])) || (n + 2 == |s| && s[n] == '1' && '0' <= s[n + 1] <= '5')
      then Gud else Bad
  {
    var buf := Terminated(s);
    assert buf[n] == if n < |s| then s[n] else Nul;
    if n < |s| {
      if s[n] == '1' {
        RunReg1(s, n + 1);
      } else if IsDigit(s[n]) {
        RunComplete(s, n + 1, Reg0);
      } else {
        assert Run(buf, n + 1, Bad) == Bad;
      }
    } else {
      assert Run(buf, n + 1, Bad) == Bad;
    }
  }

  /** The language of the register automaton. */
  lemma RegisterLanguage(s: seq<char>)
    requires Nul !in s
    ensures Run(Terminated(s), 0, Start) == Gud <==> RegisterName(s)
  {
    var buf := Terminated(s);
    assert buf[0] == if 0 < |s| then s[0] else Nul;
    if |s| >= 1 && s[0] == 'r' {
      RunRegG(s, 1);
    } else {
      assert Run(buf, 1, Bad) == Bad;
    }
  }
}
