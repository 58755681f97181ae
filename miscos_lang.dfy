/**
 * The language of `miscosa`: the operand lists it accepts are exactly those
 * `InstTables.MiscOsForm` lists, with the same selectors.  One lemma per row
 * evaluates that row; one lemma per state follows the walk from it.
 */
module MiscOsLang {
  import opened Tokens
  import opened TokenFsm
  import opened InstTables

  lemma Row0()
    ensures OnlyLive(MiscOsA, 0, {Num, Reg})
    ensures Next(MiscOsA, 0, Reg) == 2
    ensures Next(MiscOsA, 0, Num) == 1
    ensures Out(MiscOsA, 0) == None
  {
  }

  lemma Row1()
    ensures OnlyLive(MiscOsA, 1, {})
    ensures Out(MiscOsA, 1) == Some(0)
  {
  }

  lemma Row2()
    ensures OnlyLive(MiscOsA, 2, {Comma})
    ensures Next(MiscOsA, 2, Comma) == 3
    ensures Out(MiscOsA, 2) == None
  {
  }

  lemma Row3()
    ensures OnlyLive(MiscOsA, 3, {Reg})
    ensures Next(MiscOsA, 3, Reg) == 4
    ensures Out(MiscOsA, 3) == None
  {
  }

  lemma Row4()
    ensures OnlyLive(MiscOsA, 4, {})
    ensures Out(MiscOsA, 4) == Some(0)
  {
  }

  /** From state 0. */
  lemma From0(ops: seq<Kind>)
    requires NoStopsFrom(ops, 0)
    ensures Out(MiscOsA, Walk(MiscOsA, 0, ops, 0)) == MiscOsForm(ops)
  {
    Row0();
    if |ops| > 0 {
      if ops[0] == Num {
        From1(ops);
      } else if ops[0] == Reg {
        From2(ops);
      }
    }
  }

  /** From state 1, after Num. */
  lemma From1(ops: seq<Kind>)
    requires 1 <= |ops| && NoStopsFrom(ops, 1)
    requires ops[0] == Num
    ensures Out(MiscOsA, Walk(MiscOsA, 1, ops, 1)) == MiscOsForm(ops)
  {
    Row1();
  }

  /** From state 2, after Reg. */
  lemma From2(ops: seq<Kind>)
    requires 1 <= |ops| && NoStopsFrom(ops, 1)
    requires ops[0] == Reg
    ensures Out(MiscOsA, Walk(MiscOsA, 2, ops, 1)) == MiscOsForm(ops)
  {
    Row2();
    if |ops| > 1 {
      if ops[1] == Comma {
        From3(ops);
      }
    }
  }

  /** From state 3, after Reg Comma. */
  lemma From3(ops: seq<Kind>)
    requires 2 <= |ops| && NoStopsFrom(ops, 2)
    requires ops[0] == Reg && ops[1] == Comma
    ensures Out(MiscOsA, Walk(MiscOsA, 3, ops, 2)) == MiscOsForm(ops)
  {
    Row3();
    if |ops| > 2 {
      if ops[2] == Reg {
        From4(ops);
      }
    }
  }

  /** From state 4, after Reg Comma Reg. */
  lemma From4(ops: seq<Kind>)
    requires 3 <= |ops| && NoStopsFrom(ops, 3)
    requires ops[0] == Reg && ops[1] == Comma && ops[2] == Reg
    ensures Out(MiscOsA, Walk(MiscOsA, 4, ops, 3)) == MiscOsForm(ops)
  {
    Row4();
  }

  /** The operand lists `miscosa` accepts, and the selector each yields. */
  lemma Language(ops: seq<Kind>)
    requires NoStopsFrom(ops, 0)
    ensures Out(MiscOsA, Walk(MiscOsA, 0, ops, 0)) == MiscOsForm(ops)
  {
    From0(ops);
  }
}
