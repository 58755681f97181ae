/**
 * The language of `ariloga`: the operand lists it accepts are exactly those
 * `InstTables.AluForm` lists, with the same selectors.  One lemma per row
 * evaluates that row; one lemma per state follows the walk from it.
 */
module AriLogLang {
  import opened Tokens
  import opened TokenFsm
  import opened InstTables

  lemma Row0()
    ensures OnlyLive(AriLogA, 0, {Reg})
    ensures Next(AriLogA, 0, Reg) == 1
    ensures Out(AriLogA, 0) == None
  {
  }

  lemma Row1()
    ensures OnlyLive(AriLogA, 1, {Comma})
    ensures Next(AriLogA, 1, Comma) == 2
    ensures Out(AriLogA, 1) == None
  {
  }

  lemma Row2()
    ensures OnlyLive(AriLogA, 2, {Reg})
    ensures Next(AriLogA, 2, Reg) == 3
    ensures Out(AriLogA, 2) == None
  {
  }

  lemma Row3()
    ensures OnlyLive(AriLogA, 3, {Comma})
    ensures Next(AriLogA, 3, Comma) == 4
    ensures Out(AriLogA, 3) == None
  {
  }

  lemma Row4()
    ensures OnlyLive(AriLogA, 4, {Num, Reg})
    ensures Next(AriLogA, 4, Reg) == 5
    ensures Next(AriLogA, 4, Num) == 5
    ensures Out(AriLogA, 4) == None
  {
  }

  lemma Row5()
    ensures OnlyLive(AriLogA, 5, {})
    ensures Out(AriLogA, 5) == Some(0)
  {
  }

  /** From state 0. */
  lemma From0(ops: seq<Kind>)
    requires NoStopsFrom(ops, 0)
    ensures Out(AriLogA, Walk(AriLogA, 0, ops, 0)) == AluForm(ops)
  {
    Row0();
    if |ops| > 0 {
      if ops[0] == Reg {
        From1(ops);
      }
    }
  }

  /** From state 1, after Reg. */
  lemma From1(ops: seq<Kind>)
    requires 1 <= |ops| && NoStopsFrom(ops, 1)
    requires ops[0] == Reg
    ensures Out(AriLogA, Walk(AriLogA, 1, ops, 1)) == AluForm(ops)
  {
    Row1();
    if |ops| > 1 {
      if ops[1] == Comma {
        From2(ops);
      }
    }
  }

  /** From state 2, after Reg Comma. */
  lemma From2(ops: seq<Kind>)
    requires 2 <= |ops| && NoStopsFrom(ops, 2)
    requires ops[0] == Reg && ops[1] == Comma
    ensures Out(AriLogA, Walk(AriLogA, 2, ops, 2)) == AluForm(ops)
  {
    Row2();
    if |ops| > 2 {
      if ops[2] == Reg {
        From3(ops);
      }
    }
  }

  /** From state 3, after Reg Comma Reg. */
  lemma From3(ops: seq<Kind>)
    requires 3 <= |ops| && NoStopsFrom(ops, 3)
    requires ops[0] == Reg && ops[1] == Comma && ops[2] == Reg
    ensures Out(AriLogA, Walk(AriLogA, 3, ops, 3)) == AluForm(ops)
  {
    Row3();
    if |ops| > 3 {
      if ops[3] == Comma {
        From4(ops);
      }
    }
  }

  /** From state 4, after Reg Comma Reg Comma. */
  lemma From4(ops: seq<Kind>)
    requires 4 <= |ops| && NoStopsFrom(ops, 4)
    requires ops[0] == Reg && ops[1] == Comma && ops[2] == Reg
    requires ops[3] == Comma
    ensures Out(AriLogA, Walk(AriLogA, 4, ops, 4)) == AluForm(ops)
  {
    Row4();
    if |ops| > 4 {
      if ops[4] == Num || ops[4] == Reg {
        From5(ops);
      }
    }
  }

  /** From state 5, after Reg Comma Reg Comma (Num|Reg). */
  lemma From5(ops: seq<Kind>)
    requires 5 <= |ops| && NoStopsFrom(ops, 5)
    requires ops[0] == Reg && ops[1] == Comma && ops[2] == Reg
    requires ops[3] == Comma && (ops[4] == Num || ops[4] == Reg)
    ensures Out(AriLogA, Walk(AriLogA, 5, ops, 5)) == AluForm(ops)
  {
    Row5();
  }

  /** The operand lists `ariloga` accepts, and the selector each yields. */
  lemma Language(ops: seq<Kind>)
    requires NoStopsFrom(ops, 0)
    ensures Out(AriLogA, Walk(AriLogA, 0, ops, 0)) == AluForm(ops)
  {
    From0(ops);
  }
}
