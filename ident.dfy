/**
 * The identifier classifier: `idtrans`, `idchartolet` and `isid`.
 * An identifier is a lower-case letter followed by lower-case letters,
 * digits and underscores.
 */
module IdentFsm {
  import opened Chars

  // States of the automaton (`enum idstates`).
  const Start: nat := 0
  const Id: nat := 1
  const Gud: nat := 2
  const Bad: nat := 3

  // Letters, i.e. column indices (`enum idletters`).
  const Lets: nat := 0
  const Nums: nat := 1
  const BackZero: nat := 2
  const Other: nat := 3

  /** The transition table: ten rows of four columns, rows 2 to 9 zero. */
  const IdTrans: seq<seq<nat>> := [
    [Id, Bad, Bad, Bad],  // idstart
    [Id, Id, Gud, Bad],   // id
    [0, 0, 0, 0],
    [0, 0, 0, 0],
    [0, 0, 0, 0],
    [0, 0, 0, 0],
    [0, 0, 0, 0],
    [0, 0, 0, 0],
    [0, 0, 0, 0],
    [0, 0, 0, 0]
  ]

  /** The states that end the scan. */
  predicate Stopped(st: nat) { st == Bad || st == Gud }

  /** `idchartolet`: the column a character selects; digits and `_` share one. */
  function Letter(c: char): (l: nat)
    ensures l <= Other
    ensures l == BackZero <==> c == Nul
    ensures l == Lets <==> 'a' <= c <= 'z'
    ensures (IsDigit(c) || c == '_') ==> l == Nums
  {
    if 'a' <= c <= 'z' then Lets
    else if ('0' <= c <= '9') || c == '_' then Nums
    else if c == Nul then BackZero
    else Other
  }

  /** Every live state moves to a state of the automaton, and reading the terminator stops it. */
  lemma TableClosed(st: nat, l: nat)
    requires st <= Bad && !Stopped(st) && l <= Other
    ensures IdTrans[st][l] <= Bad
    ensures l == BackZero ==> Stopped(IdTrans[st][l])
  {
  }

  /** The state `isid`'s loop ends in, started in `st` with `buf[n..]` still unread. */
  function Run(buf: seq<char>, n: nat, st: nat): (r: nat)
    requires 0 < |buf| && buf[|buf| - 1] == Nul && n <= |buf|
    requires st <= Bad && (Stopped(st) || n < |buf|)
    ensures Stopped(r)
    decreases |buf| - n
  {
    if Stopped(st) then st
    else
      TableClosed(st, Letter(buf[n]));
      Run(buf, n + 1, IdTrans[st][Letter(buf[n])])
  }

  /** A character that may follow the first one of an identifier. */
  predicate IsIdentTail(c: char) { IsLower(c) || IsDigit(c) || c == '_' }

  /** `[a-z][a-z0-9_]*` */
  predicate Identifier(s: seq<char>)
  {
    |s| >= 1 && IsLower(s[0]) && forall i :: 1 <= i < |s| ==> IsIdentTail(s[i])
  }

  /** `isid`: 1 for an identifier, else 0. */
  method IsId(s: seq<char>) returns (r: int)
    requires Nul !in s
    ensures r == (if Run(Terminated(s), 0, Start) == Gud then 1 else 0)
    ensures r == (if Identifier(s) then 1 else 0)
  {
    var buf := Terminated(s);
    var n := 0;
    var st: nat := IdTrans[Start][Letter(buf[n])];
    n := n + 1;
    while st != Bad && st != Gud
      invariant 1 <= n <= |buf|
      invariant st <= Bad && (Stopped(st) || n < |buf|)
      invariant Run(buf, n, st) == Run(buf, 0, Start)
      decreases |buf| - n
    {
      TableClosed(st, Letter(buf[n]));
      st := IdTrans[st][Letter(buf[n])];
      n := n + 1;
    }
    r := if st == Gud then 1 else 0;
    IdentLanguage(s);
  }

  /** State `id` accepts exactly a rest made of identifier characters. */
  lemma {:induction false} RunId(s: seq<char>, n: nat)
    requires Nul !in s && 1 <= n <= |s|
    ensures Run(Terminated(s), n, Id) ==
      if forall i :: n <= i < |s| ==> IsIdentTail(s[i]) then Gud else Bad
    decreases |s| - n
  {
    var buf := Terminated(s);
    if n < |s| {
      assert buf[n] == s[n];
      if IsIdentTail(s[n]) {
        RunId(s, n + 1);
      }
    }
  }

  /** The language of the identifier automaton. */
  lemma IdentLanguage(s: seq<char>)
    requires Nul !in s
    ensures Run(Terminated(s), 0, Start) == Gud <==> Identifier(s)
  {
    var buf := Terminated(s);
    if |s| > 0 {
      assert buf[0] == s[0];
      if IsLower(s[0]) {
        RunId(s, 1);
      }
    }
  }
}
