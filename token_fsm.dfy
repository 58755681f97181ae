/**
 * The engine shared by `isinst`, `validmacro` and `validexpand`: a table
 * indexed by state and token kind, scanned from a start token up to the
 * first End or Comment token.
 */
module TokenFsm {
  import opened Tokens

  /** A C `int`. */
  type CInt = x: int | -0x8000_0000 <= x < 0x8000_0000

  /** A token table: one row per state, one column per token kind. */
  type Table = seq<seq<CInt>>

  /**
   * Row `s` has a column per kind; every entry outside the End column is a
   * rejection (at least `least`, negative) or a row of the table, and the
   * End entry is an encoding selector byte or -1.
   */
  predicate RowOk(T: Table, s: nat, least: int)
    requires s < |T|
  {
    |T[s]| == Width &&
    (forall c :: 0 <= c < Width - 1 ==> least <= T[s][c] < |T|) &&
    -1 <= T[s][Width - 1] <= 0xFF
  }

  predicate WellFormed(T: Table, least: int)
  {
    |T| >= 1 && forall s :: 0 <= s < |T| ==> RowOk(T, s, least)
  }

  /**
   * Rows before `n` lead only to rows before `n`; rows from `n` on are the
   * zero rows of the C declaration.
   */
  predicate RowWritten(T: Table, s: nat, n: nat)
    requires s < |T|
  {
    if s < n then forall c :: 0 <= c < Width - 1 && c < |T[s]| ==> T[s][c] < n
    else forall c :: 0 <= c < |T[s]| ==> T[s][c] == 0
  }

  predicate RowsWritten(T: Table, n: nat)
  {
    n <= |T| && forall s :: 0 <= s < |T| ==> RowWritten(T, s, n)
  }

  /**
   * The entry for state `s` and kind `k`.  In a well-formed table every
   * state a scan reaches is a row, so the dead answer outside the table
   * never arises.
   */
  function Next(T: Table, s: int, k: Kind): (t: int)
  {
    if 0 <= s < |T| && Col(k) < |T[s]| then T[s][Col(k)] else -1
  }

  /** Every kind outside `live`, other than the two stop kinds, is rejected in state `s`. */
  predicate OnlyLive(T: Table, s: int, live: set<Kind>)
  {
    forall k :: !IsStop(k) && k !in live ==> Next(T, s, k) < 0
  }

  /** The selector a state's End column yields, if the line may end there. */
  function Out(T: Table, s: int): (sel: Option<CInt>)
  {
    if 0 <= s < |T| && Col(End) < |T[s]| && T[s][Col(End)] >= 0 then Some(T[s][Col(End)]) else None
  }

  /**
   * The state the C loop ends in: starting in `s` at token `i`, it steps
   * while the state is live and the current token is not End or Comment.
   */
  function Scan(T: Table, s: int, toks: seq<Kind>, i: nat): (t: int)
    requires i <= |toks| && (s < 0 || HasStop(toks, i))
    decreases |toks| - i
  {
    if s < 0 || IsStop(toks[i]) then s else Scan(T, Next(T, s, toks[i]), toks, i + 1)
  }

  /** The state reached by reading `ops[i..]` from state `s`; a dead state stays dead. */
  function Walk(T: Table, s: int, ops: seq<Kind>, i: nat): (t: int)
    requires i <= |ops|
    decreases |ops| - i
  {
    if s < 0 || i == |ops| then s else Walk(T, Next(T, s, ops[i]), ops, i + 1)
  }

  /** One step of the C loop: the table lookup for the current token, then the rest of the scan. */
  lemma ScanStep(T: Table, least: int, s: int, toks: seq<Kind>, i: nat)
    requires WellFormed(T, least) && 0 <= s < |T|
    requires i < |toks| && !IsStop(toks[i]) && HasStop(toks, i)
    ensures RowOk(T, s, least) && HasStop(toks, i + 1)
    ensures Scan(T, s, toks, i) == Scan(T, T[s][Col(toks[i])], toks, i + 1)
  {
    assert RowOk(T, s, least);
  }

  /** A scan from state `s` stays inside a well-formed table. */
  lemma {:induction false} ScanInTable(T: Table, least: int, s: int, toks: seq<Kind>, i: nat)
    requires WellFormed(T, least) && s < |T|
    requires i <= |toks| && (s < 0 || HasStop(toks, i))
    ensures Scan(T, s, toks, i) < |T|
    decreases |toks| - i
  {
    if s >= 0 && !IsStop(toks[i]) {
      assert RowOk(T, s, least);
      ScanInTable(T, least, Next(T, s, toks[i]), toks, i + 1);
    }
  }

  /** The C loop, from token `i` up to the stop token, is the walk over the operands from `a` on. */
  lemma {:induction false} ScanIsWalk(T: Table, s: int, toks: seq<Kind>, a: nat, i: nat)
    requires HasStop(toks, a) && a <= i <= FirstStop(toks, a)
    ensures HasStop(toks, i)
    ensures Scan(T, s, toks, i) == Walk(T, s, Operands(toks, a), i - a)
    decreases FirstStop(toks, a) - i
  {
    var f := FirstStop(toks, a);
    var ops := Operands(toks, a);
    if s >= 0 && i < f {
      assert ops[i - a] == toks[i];
      ScanIsWalk(T, Next(T, s, toks[i]), toks, a, i + 1);
    }
  }

  /**
   * The first read, done before the loop, is the first step of the walk:
   * when row 0 rejects both stop kinds (so no line ends in it), the scan
   * from token `from` yields what the walk over the operands from state 0
   * yields.
   */
  lemma DriverIsWalk(T: Table, toks: seq<Kind>, from: nat)
    requires HasStop(toks, from)
    requires Next(T, 0, End) < 0 && Next(T, 0, Comment) < 0
    ensures from + 1 <= |toks| && (Next(T, 0, toks[from]) < 0 || HasStop(toks, from + 1))
    ensures Out(T, Scan(T, Next(T, 0, toks[from]), toks, from + 1)) == Out(T, Walk(T, 0, Operands(toks, from), 0))
  {
    var f := FirstStop(toks, from);
    if from < f {
      ScanIsWalk(T, Next(T, 0, toks[from]), toks, from, from + 1);
    }
  }

  /** The 32-bit two's-complement word of a C `int`. */
  function Word(x: CInt): (w: bv32)
  {
    if x < 0 then (x + 0x1_0000_0000) as bv32 else x as bv32
  }

  /** The all-ones word, the C value -1: an invalid instruction. */
  const Invalid: bv32 := 0xFFFF_FFFF

  /** -1 is the all-ones word, and or-ing it into any opcode gives -1 again. */
  lemma MinusOneAbsorbs(opcode: bv32)
    ensures Word(-1) == Invalid
    ensures opcode | Word(-1) == Invalid
  {
  }

  /** The encoding of a line: the base opcode with the form's selector bits or-ed in, or -1. */
  function Encode(opcode: bv32, sel: Option<CInt>): (w: bv32)
  {
    match sel
    case None => Invalid
    case Some(x) => opcode | Word(x)
  }

  /** The value `isinst` returns for the state its loop ends in. */
  function Finish(T: Table, opcode: bv32, s: int): (w: bv32)
    requires s < |T| && (s >= 0 ==> RowOk(T, s, -1))
  {
    if s < 0 then Invalid else opcode | Word(T[s][Col(End)])
  }

  /** In a table whose entries are at least -1, the C return expression encodes the selector of the final state. */
  lemma FinishEncodes(T: Table, opcode: bv32, s: int)
    requires s < |T| && (s >= 0 ==> RowOk(T, s, -1))
    ensures Finish(T, opcode, s) == Encode(opcode, Out(T, s))
  {
    if s >= 0 {
      var e := T[s][Col(End)];
      if e < 0 {
        assert e == -1;
        MinusOneAbsorbs(opcode);
      } else {
        assert Out(T, s) == Some(e);
      }
    }
  }

  /**
   * The whole driver for one well-formed table whose row 0 rejects both
   * stop kinds: the state the scan from token `from` ends in is a row of
   * the table (or dead), and the C return expression for it encodes the
   * selector the walk over the operands yields.
   */
  lemma DriverEncodes(T: Table, opcode: bv32, toks: seq<Kind>, from: nat, s: int)
    requires WellFormed(T, -1) && Next(T, 0, End) < 0 && Next(T, 0, Comment) < 0
    requires HasStop(toks, from) && from + 1 <= |toks|
    requires Next(T, 0, toks[from]) < 0 || HasStop(toks, from + 1)
    requires s == Scan(T, Next(T, 0, toks[from]), toks, from + 1)
    ensures s < |T| && (s >= 0 ==> RowOk(T, s, -1))
    ensures Finish(T, opcode, s) == Encode(opcode, Out(T, Walk(T, 0, Operands(toks, from), 0)))
  {
    assert RowOk(T, 0, -1);
    ScanInTable(T, -1, Next(T, 0, toks[from]), toks, from + 1);
    FinishEncodes(T, opcode, s);
    DriverIsWalk(T, toks, from);
  }

  /**
   * The loop `isinst` runs over its table: the first lookup at token
   * `from`, then one lookup per token while the state is live and the
   * token is not End or Comment.
   */
  method ScanTokens(T: Table, toks: seq<Kind>, from: nat) returns (s: int)
    requires WellFormed(T, -1) && Next(T, 0, End) < 0 && Next(T, 0, Comment) < 0
    requires HasStop(toks, from)
    ensures from + 1 <= |toks| && (Next(T, 0, toks[from]) < 0 || HasStop(toks, from + 1))
    ensures s == Scan(T, Next(T, 0, toks[from]), toks, from + 1)
    ensures s < |T| && (s >= 0 ==> RowOk(T, s, -1))
  {
    var i := from;
    assert RowOk(T, 0, -1);
    s := T[0][Col(toks[i])];
    i := i + 1;
    ghost var first := s;
    DriverIsWalk(T, toks, from);
    while s >= 0 && toks[i] != End && toks[i] != Comment
      invariant from + 1 <= i <= |toks|
      invariant s < |T| && (s >= 0 ==> HasStop(toks, i))
      invariant Scan(T, s, toks, i) == Scan(T, first, toks, from + 1)
      decreases |toks| - i
    {
      ScanStep(T, -1, s, toks, i);
      s := T[s][Col(toks[i])];
      i := i + 1;
    }
    if s >= 0 {
      assert RowOk(T, s, -1);
    }
  }

  /**
   * The body of `isinst` once its table is chosen: the scan from token 1,
   * then the final state's End entry or-ed into the opcode, or -1 for a
   * dead state.  The result encodes the selector the walk over the
   * operands yields.
   */
  method ScanAndEncode(T: Table, opcode: bv32, toks: seq<Kind>) returns (r: bv32)
    requires WellFormed(T, -1) && Next(T, 0, End) < 0 && Next(T, 0, Comment) < 0
    requires HasStop(toks, 1)
    ensures r == Encode(opcode, Out(T, Walk(T, 0, Operands(toks, 1), 0)))
  {
    var s := ScanTokens(T, toks, 1);
    r := if s < 0 then Invalid else opcode | Word(T[s][Col(End)]);
    DriverEncodes(T, opcode, toks, 1, s);
  }
}
