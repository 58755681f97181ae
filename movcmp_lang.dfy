/**
 * The language of `movcmpa`: the operand lists it accepts are exactly those
 * `InstTables.MovCmpForm` lists, with the same selectors.  One lemma per row
 * evaluates that row; one lemma per state follows the walk from it.
 */
module MovCmpLang {
  import opened Tokens
  import opened TokenFsm
  import opened InstTables

  lemma Row0()
    ensures OnlyLive(MovCmpA, 0, {Reg})
    ensures Next(MovCmpA, 0, Reg) == 1
    ensures Out(MovCmpA, 0) == None
  {
  }

  lemma Row1()
    ensures OnlyLive(MovCmpA, 1, {Comma})
    ensures Next(MovCmpA, 1, Comma) == 2
    ensures Out(MovCmpA, 1) == None
  {
  }

  lemma Row2()
    ensures OnlyLive(MovCmpA, 2, {Ident, Num, Reg})
    ensures Next(MovCmpA, 2, Reg) == 3
    ensures Next(MovCmpA, 2, Num) == 4
    ensures Next(MovCmpA, 2, Ident) == 4
    ensures Out(MovCmpA, 2) == None
  {
  }

  lemma Row3()
    ensures OnlyLive(MovCmpA, 3, {})
    ensures Out(MovCmpA, 3) == Some(112)
  {
  }

  lemma Row4()
    ensures OnlyLive(MovCmpA, 4, {})
    ensures Out(MovCmpA, 4) == Some(128)
  {
  }

  /** From state 0. */
  lemma From0(ops: seq<Kind>)
    requires NoStopsFrom(ops, 0)
    ensures Out(MovCmpA, Walk(MovCmpA, 0, ops, 0)) == MovCmpForm(ops)
  {
    Row0();
    if |ops| > 0 {
      if ops[0] == Reg {
        From1(ops);
      }
    }
  }

  /** From state 1, after Reg. */
  lemma From1(ops: seq<Kind>)
    requires 1 <= |ops| && NoStopsFrom(ops, 1)
    requires ops[0] == Reg
    ensures Out(MovCmpA, Walk(MovCmpA, 1, ops, 1)) == MovCmpForm(ops)
  {
    Row1();
    if |ops| > 1 {
      if ops[1] == Comma {
        From2(ops);
      }
    }
  }

  /** From state 2, after Reg Comma. */
  lemma From2(ops: seq<Kind>)
    requires 2 <= |ops| && NoStopsFrom(ops, 2)
    requires ops[0] == Reg && ops[1] == Comma
    ensures Out(MovCmpA, Walk(MovCmpA, 2, ops, 2)) == MovCmpForm(ops)
  {
    Row2();
    if |ops| > 2 {
      if ops[2] == Reg {
        From3(ops);
      } else if ops[2] == Ident || ops[2] == Num {
        From4(ops);
      }
    }
  }

  /** From state 3, after Reg Comma Reg. */
  lemma From3(ops: seq<Kind>)
    requires 3 <= |ops| && NoStopsFrom(ops, 3)
    requires ops[0] == Reg && ops[1] == Comma && ops[2] == Reg
    ensures Out(MovCmpA, Walk(MovCmpA, 3, ops, 3)) == MovCmpForm(ops)
  {
    Row3();
  }

  /** From state 4, after Reg Comma (Ident|Num). */
  lemma From4(ops: seq<Kind>)
    requires 3 <= |ops| && NoStopsFrom(ops, 3)
    requires ops[0] == Reg && ops[1] == Comma && (ops[2] == Ident || ops[2] == Num)
    ensures Out(MovCmpA, Walk(MovCmpA, 4, ops, 3)) == MovCmpForm(ops)
  {
    Row4();
  }

  /** The operand lists `movcmpa` accepts, and the selector each yields. */
  lemma Language(ops: seq<Kind>)
    requires NoStopsFrom(ops, 0)
    ensures Out(MovCmpA, Walk(MovCmpA, 0, ops, 0)) == MovCmpForm(ops)
  {
    From0(ops);
  }
}
