/**
 * The language of `brancha`: the operand lists it accepts are exactly those
 * `InstTables.BranchForm` lists, with the same selectors.  One lemma per row
 * evaluates that row; one lemma per state follows the walk from it.
 */
module BranchLang {
  import opened Tokens
  import opened TokenFsm
  import opened InstTables

  lemma Row0()
    ensures OnlyLive(BranchA, 0, {Excl, Ident, LBrack, Num})
    ensures Next(BranchA, 0, Num) == 4
    ensures Next(BranchA, 0, LBrack) == 1
    ensures Next(BranchA, 0, Excl) == 5
    ensures Next(BranchA, 0, Ident) == 4
    ensures Out(BranchA, 0) == None
  {
  }

  lemma Row1()
    ensures OnlyLive(BranchA, 1, {Reg})
    ensures Next(BranchA, 1, Reg) == 2
    ensures Out(BranchA, 1) == None
  {
  }

  lemma Row2()
    ensures OnlyLive(BranchA, 2, {RBrack})
    ensures Next(BranchA, 2, RBrack) == 3
    ensures Out(BranchA, 2) == None
  {
  }

  lemma Row3()
    ensures OnlyLive(BranchA, 3, {})
    ensures Out(BranchA, 3) == Some(160)
  {
  }

  lemma Row4()
    ensures OnlyLive(BranchA, 4, {})
    ensures Out(BranchA, 4) == Some(144)
  {
  }

  lemma Row5()
    ensures OnlyLive(BranchA, 5, {Ident})
    ensures Next(BranchA, 5, Ident) == 6
    ensures Out(BranchA, 5) == None
  {
  }

  lemma Row6()
    ensures OnlyLive(BranchA, 6, {})
    ensures Out(BranchA, 6) == Some(176)
  {
  }

  /** From state 0. */
  lemma From0(ops: seq<Kind>)
    requires NoStopsFrom(ops, 0)
    ensures Out(BranchA, Walk(BranchA, 0, ops, 0)) == BranchForm(ops)
  {
    Row0();
    if |ops| > 0 {
      if ops[0] == LBrack {
        From1(ops);
      } else if ops[0] == Ident || ops[0] == Num {
        From4(ops);
      } else if ops[0] == Excl {
        From5(ops);
      }
    }
  }

  /** From state 1, after LBrack. */
  lemma From1(ops: seq<Kind>)
    requires 1 <= |ops| && NoStopsFrom(ops, 1)
    requires ops[0] == LBrack
    ensures Out(BranchA, Walk(BranchA, 1, ops, 1)) == BranchForm(ops)
  {
    Row1();
    if |ops| > 1 {
      if ops[1] == Reg {
        From2(ops);
      }
    }
  }

  /** From state 2, after LBrack Reg. */
  lemma From2(ops: seq<Kind>)
    requires 2 <= |ops| && NoStopsFrom(ops, 2)
    requires ops[0] == LBrack && ops[1] == Reg
    ensures Out(BranchA, Walk(BranchA, 2, ops, 2)) == BranchForm(ops)
  {
    Row2();
    if |ops| > 2 {
      if ops[2] == RBrack {
        From3(ops);
      }
    }
  }

  /** From state 3, after LBrack Reg RBrack. */
  lemma From3(ops: seq<Kind>)
    requires 3 <= |ops| && NoStopsFrom(ops, 3)
    requires ops[0] == LBrack && ops[1] == Reg && ops[2] == RBrack
    ensures Out(BranchA, Walk(BranchA, 3, ops, 3)) == BranchForm(ops)
  {
    Row3();
  }

  /** From state 4, after (Ident|Num). */
  lemma From4(ops: seq<Kind>)
    requires 1 <= |ops| && NoStopsFrom(ops, 1)
    requires (ops[0] == Ident || ops[0] == Num)
    ensures Out(BranchA, Walk(BranchA, 4, ops, 1)) == BranchForm(ops)
  {
    Row4();
  }

  /** From state 5, after Excl. */
  lemma From5(ops: seq<Kind>)
    requires 1 <= |ops| && NoStopsFrom(ops, 1)
    requires ops[0] == Excl
    ensures Out(BranchA, Walk(BranchA, 5, ops, 1)) == BranchForm(ops)
  {
    Row5();
    if |ops| > 1 {
      if ops[1] == Ident {
        From6(ops);
      }
    }
  }

  /** From state 6, after Excl Ident. */
  lemma From6(ops: seq<Kind>)
    requires 2 <= |ops| && NoStopsFrom(ops, 2)
    requires ops[0] == Excl && ops[1] == Ident
    ensures Out(BranchA, Walk(BranchA, 6, ops, 2)) == BranchForm(ops)
  {
    Row6();
  }

  /** The operand lists `brancha` accepts, and the selector each yields. */
  lemma Language(ops: seq<Kind>)
    requires NoStopsFrom(ops, 0)
    ensures Out(BranchA, Walk(BranchA, 0, ops, 0)) == BranchForm(ops)
  {
    From0(ops);
  }
}
