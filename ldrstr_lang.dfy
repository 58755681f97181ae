/**
 * The language of `ldrstra`: the operand lists it accepts are exactly those
 * `InstTables.LdrStrForm` lists, with the same selectors.  One lemma per row
 * evaluates that row; one lemma per state follows the walk from it.
 */
module LdrStrLang {
  import opened Tokens
  import opened TokenFsm
  import opened InstTables

  lemma Row0()
    ensures OnlyLive(LdrStrA, 0, {Reg})
    ensures Next(LdrStrA, 0, Reg) == 1
    ensures Out(LdrStrA, 0) == None
  {
  }

  lemma Row1()
    ensures OnlyLive(LdrStrA, 1, {Comma})
    ensures Next(LdrStrA, 1, Comma) == 2
    ensures Out(LdrStrA, 1) == None
  {
  }

  lemma Row2()
    ensures OnlyLive(LdrStrA, 2, {Excl, Ident, LBrack, Num})
    ensures Next(LdrStrA, 2, Num) == 8
    ensures Next(LdrStrA, 2, LBrack) == 3
    ensures Next(LdrStrA, 2, Excl) == 20
    ensures Next(LdrStrA, 2, Ident) == 8
    ensures Out(LdrStrA, 2) == None
  {
  }

  lemma Row3()
    ensures OnlyLive(LdrStrA, 3, {Reg})
    ensures Next(LdrStrA, 3, Reg) == 4
    ensures Out(LdrStrA, 3) == None
  {
  }

  lemma Row4()
    ensures OnlyLive(LdrStrA, 4, {Comma, RBrack})
    ensures Next(LdrStrA, 4, Comma) == 5
    ensures Next(LdrStrA, 4, RBrack) == 9
    ensures Out(LdrStrA, 4) == None
  {
  }

  lemma Row5()
    ensures OnlyLive(LdrStrA, 5, {Num, Reg})
    ensures Next(LdrStrA, 5, Reg) == 6
    ensures Next(LdrStrA, 5, Num) == 7
    ensures Out(LdrStrA, 5) == None
  {
  }

  lemma Row6()
    ensures OnlyLive(LdrStrA, 6, {Comma, RBrack})
    ensures Next(LdrStrA, 6, Comma) == 17
    ensures Next(LdrStrA, 6, RBrack) == 11
    ensures Out(LdrStrA, 6) == None
  {
  }

  lemma Row7()
    ensures OnlyLive(LdrStrA, 7, {RBrack})
    ensures Next(LdrStrA, 7, RBrack) == 10
    ensures Out(LdrStrA, 7) == None
  {
  }

  lemma Row8()
    ensures OnlyLive(LdrStrA, 8, {})
    ensures Out(LdrStrA, 8) == Some(0)
  {
  }

  lemma Row9()
    ensures OnlyLive(LdrStrA, 9, {Comma})
    ensures Next(LdrStrA, 9, Comma) == 14
    ensures Out(LdrStrA, 9) == Some(1)
  {
  }

  lemma Row10()
    ensures OnlyLive(LdrStrA, 10, {Excl})
    ensures Next(LdrStrA, 10, Excl) == 12
    ensures Out(LdrStrA, 10) == Some(2)
  {
  }

  lemma Row11()
    ensures OnlyLive(LdrStrA, 11, {Excl})
    ensures Next(LdrStrA, 11, Excl) == 13
    ensures Out(LdrStrA, 11) == Some(3)
  {
  }

  lemma Row12()
    ensures OnlyLive(LdrStrA, 12, {})
    ensures Out(LdrStrA, 12) == Some(4)
  {
  }

  lemma Row13()
    ensures OnlyLive(LdrStrA, 13, {})
    ensures Out(LdrStrA, 13) == Some(5)
  {
  }

  lemma Row14()
    ensures OnlyLive(LdrStrA, 14, {Num, Reg})
    ensures Next(LdrStrA, 14, Reg) == 16
    ensures Next(LdrStrA, 14, Num) == 15
    ensures Out(LdrStrA, 14) == None
  {
  }

  lemma Row15()
    ensures OnlyLive(LdrStrA, 15, {})
    ensures Out(LdrStrA, 15) == Some(6)
  {
  }

  lemma Row16()
    ensures OnlyLive(LdrStrA, 16, {})
    ensures Out(LdrStrA, 16) == Some(7)
  {
  }

  lemma Row17()
    ensures OnlyLive(LdrStrA, 17, {Num})
    ensures Next(LdrStrA, 17, Num) == 18
    ensures Out(LdrStrA, 17) == None
  {
  }

  lemma Row18()
    ensures OnlyLive(LdrStrA, 18, {RBrack})
    ensures Next(LdrStrA, 18, RBrack) == 19
    ensures Out(LdrStrA, 18) == None
  {
  }

  lemma Row19()
    ensures OnlyLive(LdrStrA, 19, {})
    ensures Out(LdrStrA, 19) == Some(8)
  {
  }

  lemma Row20()
    ensures OnlyLive(LdrStrA, 20, {Ident})
    ensures Next(LdrStrA, 20, Ident) == 21
    ensures Out(LdrStrA, 20) == None
  {
  }

  lemma Row21()
    ensures OnlyLive(LdrStrA, 21, {})
    ensures Out(LdrStrA, 21) == Some(9)
  {
  }

  /** From state 0. */
  lemma From0(ops: seq<Kind>)
    requires NoStopsFrom(ops, 0)
    ensures Out(LdrStrA, Walk(LdrStrA, 0, ops, 0)) == LdrStrForm(ops)
  {
    Row0();
    if |ops| > 0 {
      if ops[0] == Reg {
        From1(ops);
      }
    }
  }

  /** From state 1, after Reg. */
  lemma From1(ops: seq<Kind>)
    requires 1 <= |ops| && NoStopsFrom(ops, 1)
    requires ops[0] == Reg
    ensures Out(LdrStrA, Walk(LdrStrA, 1, ops, 1)) == LdrStrForm(ops)
  {
    Row1();
    if |ops| > 1 {
      if ops[1] == Comma {
        From2(ops);
      }
    }
  }

  /** From state 2, after Reg Comma. */
  lemma From2(ops: seq<Kind>)
    requires 2 <= |ops| && NoStopsFrom(ops, 2)
    requires ops[0] == Reg && ops[1] == Comma
    ensures Out(LdrStrA, Walk(LdrStrA, 2, ops, 2)) == LdrStrForm(ops)
  {
    Row2();
    if |ops| > 2 {
      if ops[2] == LBrack {
        From3(ops);
      } else if ops[2] == Ident || ops[2] == Num {
        From8(ops);
      } else if ops[2] == Excl {
        From20(ops);
      } else {
        assert Walk(LdrStrA, 2, ops, 2) == Next(LdrStrA, 2, ops[2]) < 0;
      }
    }
  }

  /** From state 3, after Reg Comma LBrack. */
  lemma From3(ops: seq<Kind>)
    requires 3 <= |ops| && NoStopsFrom(ops, 3)
    requires ops[0] == Reg && ops[1] == Comma && ops[2] == LBrack
    ensures Out(LdrStrA, Walk(LdrStrA, 3, ops, 3)) == BracketForm(ops)
  {
    Row3();
    if |ops| > 3 {
      if ops[3] == Reg {
        From4(ops);
      }
    }
  }

  /** From state 4, after Reg Comma LBrack Reg. */
  lemma From4(ops: seq<Kind>)
    requires 4 <= |ops| && NoStopsFrom(ops, 4)
    requires ops[0] == Reg && ops[1] == Comma && ops[2] == LBrack
    requires ops[3] == Reg
    ensures Out(LdrStrA, Walk(LdrStrA, 4, ops, 4)) == BracketForm(ops)
  {
    Row4();
    if |ops| > 4 {
      if ops[4] == Comma {
        From5(ops);
      } else if ops[4] == RBrack {
        From9(ops);
      }
    }
  }

  /** From state 5, after Reg Comma LBrack Reg Comma. */
  lemma From5(ops: seq<Kind>)
    requires 5 <= |ops| && NoStopsFrom(ops, 5)
    requires ops[0] == Reg && ops[1] == Comma && ops[2] == LBrack
    requires ops[3] == Reg && ops[4] == Comma
    ensures Out(LdrStrA, Walk(LdrStrA, 5, ops, 5)) == PreIndexForm(ops)
  {
    Row5();
    if |ops| > 5 {
      if ops[5] == Reg {
        From6(ops);
      } else if ops[5] == Num {
        From7(ops);
      }
    }
  }

  /** From state 6, after Reg Comma LBrack Reg Comma Reg. */
  lemma From6(ops: seq<Kind>)
    requires 6 <= |ops| && NoStopsFrom(ops, 6)
    requires ops[0] == Reg && ops[1] == Comma && ops[2] == LBrack
    requires ops[3] == Reg && ops[4] == Comma && ops[5] == Reg
    ensures Out(LdrStrA, Walk(LdrStrA, 6, ops, 6)) == PreIndexForm(ops)
  {
    Row6();
    if |ops| > 6 {
      if ops[6] == RBrack {
        From11(ops);
      } else if ops[6] == Comma {
        From17(ops);
      }
    }
  }

  /** From state 7, after Reg Comma LBrack Reg Comma Num. */
  lemma From7(ops: seq<Kind>)
    requires 6 <= |ops| && NoStopsFrom(ops, 6)
    requires ops[0] == Reg && ops[1] == Comma && ops[2] == LBrack
    requires ops[3] == Reg && ops[4] == Comma && ops[5] == Num
    ensures Out(LdrStrA, Walk(LdrStrA, 7, ops, 6)) == PreIndexForm(ops)
  {
    Row7();
    if |ops| > 6 {
      if ops[6] == RBrack {
        From10(ops);
      }
    }
  }

  /** From state 8, after Reg Comma (Ident|Num). */
  lemma From8(ops: seq<Kind>)
    requires 3 <= |ops| && NoStopsFrom(ops, 3)
    requires ops[0] == Reg && ops[1] == Comma && (ops[2] == Ident || ops[2] == Num)
    ensures Out(LdrStrA, Walk(LdrStrA, 8, ops, 3)) == LdrStrForm(ops)
  {
    Row8();
    if |ops| > 3 {
      assert Walk(LdrStrA, 8, ops, 3) == Next(LdrStrA, 8, ops[3]) < 0;
    }
  }

  /** From state 9, after Reg Comma LBrack Reg RBrack. */
  lemma From9(ops: seq<Kind>)
    requires 5 <= |ops| && NoStopsFrom(ops, 5)
    requires ops[0] == Reg && ops[1] == Comma && ops[2] == LBrack
    requires ops[3] == Reg && ops[4] == RBrack
    ensures Out(LdrStrA, Walk(LdrStrA, 9, ops, 5)) == PostIndexForm(ops)
  {
    Row9();
    if |ops| > 5 {
      if ops[5] == Comma {
        From14(ops);
      }
    }
  }

  /** From state 10, after Reg Comma LBrack Reg Comma Num RBrack. */
  lemma From10(ops: seq<Kind>)
    requires 7 <= |ops| && NoStopsFrom(ops, 7)
    requires ops[0] == Reg && ops[1] == Comma && ops[2] == LBrack
    requires ops[3] == Reg && ops[4] == Comma && ops[5] == Num
    requires ops[6] == RBrack
    ensures Out(LdrStrA, Walk(LdrStrA, 10, ops, 7)) == PreIndexForm(ops)
  {
    Row10();
    if |ops| > 7 {
      if ops[7] == Excl {
        From12(ops);
      }
    }
  }

  /** From state 11, after Reg Comma LBrack Reg Comma Reg RBrack. */
  lemma From11(ops: seq<Kind>)
    requires 7 <= |ops| && NoStopsFrom(ops, 7)
    requires ops[0] == Reg && ops[1] == Comma && ops[2] == LBrack
    requires ops[3] == Reg && ops[4] == Comma && ops[5] == Reg
    requires ops[6] == RBrack
    ensures Out(LdrStrA, Walk(LdrStrA, 11, ops, 7)) == PreIndexForm(ops)
  {
    Row11();
    if |ops| > 7 {
      if ops[7] == Excl {
        From13(ops);
      }
    }
  }

  /** From state 12, after Reg Comma LBrack Reg Comma Num RBrack Excl. */
  lemma From12(ops: seq<Kind>)
    requires 8 <= |ops| && NoStopsFrom(ops, 8)
    requires ops[0] == Reg && ops[1] == Comma && ops[2] == LBrack
    requires ops[3] == Reg && ops[4] == Comma && ops[5] == Num
    requires ops[6] == RBrack && ops[7] == Excl
    ensures Out(LdrStrA, Walk(LdrStrA, 12, ops, 8)) == PreIndexForm(ops)
  {
    Row12();
    if |ops| > 8 {
      assert Walk(LdrStrA, 12, ops, 8) == Next(LdrStrA, 12, ops[8]) < 0;
    }
  }

  /** From state 13, after Reg Comma LBrack Reg Comma Reg RBrack Excl. */
  lemma From13(ops: seq<Kind>)
    requires 8 <= |ops| && NoStopsFrom(ops, 8)
    requires ops[0] == Reg && ops[1] == Comma && ops[2] == LBrack
    requires ops[3] == Reg && ops[4] == Comma && ops[5] == Reg
    requires ops[6] == RBrack && ops[7] == Excl
    ensures Out(LdrStrA, Walk(LdrStrA, 13, ops, 8)) == PreIndexForm(ops)
  {
    Row13();
    if |ops| > 8 {
      assert Walk(LdrStrA, 13, ops, 8) == Next(LdrStrA, 13, ops[8]) < 0;
    }
  }

  /** From state 14, after Reg Comma LBrack Reg RBrack Comma. */
  lemma From14(ops: seq<Kind>)
    requires 6 <= |ops| && NoStopsFrom(ops, 6)
    requires ops[0] == Reg && ops[1] == Comma && ops[2] == LBrack
    requires ops[3] == Reg && ops[4] == RBrack && ops[5] == Comma
    ensures Out(LdrStrA, Walk(LdrStrA, 14, ops, 6)) == PostIndexForm(ops)
  {
    Row14();
    if |ops| > 6 {
      if ops[6] == Num {
        From15(ops);
      } else if ops[6] == Reg {
        From16(ops);
      }
    }
  }

  /** From state 15, after Reg Comma LBrack Reg RBrack Comma Num. */
  lemma From15(ops: seq<Kind>)
    requires 7 <= |ops| && NoStopsFrom(ops, 7)
    requires ops[0] == Reg && ops[1] == Comma && ops[2] == LBrack
    requires ops[3] == Reg && ops[4] == RBrack && ops[5] == Comma
    requires ops[6] == Num
    ensures Out(LdrStrA, Walk(LdrStrA, 15, ops, 7)) == PostIndexForm(ops)
  {
    Row15();
    if |ops| > 7 {
      assert Walk(LdrStrA, 15, ops, 7) == Next(LdrStrA, 15, ops[7]) < 0;
    }
  }

  /** From state 16, after Reg Comma LBrack Reg RBrack Comma Reg. */
  lemma From16(ops: seq<Kind>)
    requires 7 <= |ops| && NoStopsFrom(ops, 7)
    requires ops[0] == Reg && ops[1] == Comma && ops[2] == LBrack
    requires ops[3] == Reg && ops[4] == RBrack && ops[5] == Comma
    requires ops[6] == Reg
    ensures Out(LdrStrA, Walk(LdrStrA, 16, ops, 7)) == PostIndexForm(ops)
  {
    Row16();
    if |ops| > 7 {
      assert Walk(LdrStrA, 16, ops, 7) == Next(LdrStrA, 16, ops[7]) < 0;
    }
  }

  /** From state 17, after Reg Comma LBrack Reg Comma Reg Comma. */
  lemma From17(ops: seq<Kind>)
    requires 7 <= |ops| && NoStopsFrom(ops, 7)
    requires ops[0] == Reg && ops[1] == Comma && ops[2] == LBrack
    requires ops[3] == Reg && ops[4] == Comma && ops[5] == Reg
    requires ops[6] == Comma
    ensures Out(LdrStrA, Walk(LdrStrA, 17, ops, 7)) == PreIndexForm(ops)
  {
    Row17();
    if |ops| > 7 {
      if ops[7] == Num {
        From18(ops);
      }
    }
  }

  /** From state 18, after Reg Comma LBrack Reg Comma Reg Comma Num. */
  lemma From18(ops: seq<Kind>)
    requires 8 <= |ops| && NoStopsFrom(ops, 8)
    requires ops[0] == Reg && ops[1] == Comma && ops[2] == LBrack
    requires ops[3] == Reg && ops[4] == Comma && ops[5] == Reg
    requires ops[6] == Comma && ops[7] == Num
    ensures Out(LdrStrA, Walk(LdrStrA, 18, ops, 8)) == PreIndexForm(ops)
  {
    Row18();
    if |ops| > 8 {
      if ops[8] == RBrack {
        From19(ops);
      }
    }
  }

  /** From state 19, after Reg Comma LBrack Reg Comma Reg Comma Num RBrack. */
  lemma From19(ops: seq<Kind>)
    requires 9 <= |ops| && NoStopsFrom(ops, 9)
    requires ops[0] == Reg && ops[1] == Comma && ops[2] == LBrack
    requires ops[3] == Reg && ops[4] == Comma && ops[5] == Reg
    requires ops[6] == Comma && ops[7] == Num && ops[8] == RBrack
    ensures Out(LdrStrA, Walk(LdrStrA, 19, ops, 9)) == PreIndexForm(ops)
  {
    Row19();
    if |ops| > 9 {
      assert Walk(LdrStrA, 19, ops, 9) == Next(LdrStrA, 19, ops[9]) < 0;
    }
  }

  /** From state 20, after Reg Comma Excl. */
  lemma From20(ops: seq<Kind>)
    requires 3 <= |ops| && NoStopsFrom(ops, 3)
    requires ops[0] == Reg && ops[1] == Comma && ops[2] == Excl
    ensures Out(LdrStrA, Walk(LdrStrA, 20, ops, 3)) == LdrStrForm(ops)
  {
    Row20();
    if |ops| > 3 {
      if ops[3] == Ident {
        From21(ops);
      }
    }
  }

  /** From state 21, after Reg Comma Excl Ident. */
  lemma From21(ops: seq<Kind>)
    requires 4 <= |ops| && NoStopsFrom(ops, 4)
    requires ops[0] == Reg && ops[1] == Comma && ops[2] == Excl
    requires ops[3] == Ident
    ensures Out(LdrStrA, Walk(LdrStrA, 21, ops, 4)) == LdrStrForm(ops)
  {
    Row21();
    if |ops| > 4 {
      assert Walk(LdrStrA, 21, ops, 4) == Next(LdrStrA, 21, ops[4]) < 0;
    }
  }

  /** The operand lists `ldrstra` accepts, and the selector each yields. */
  lemma Language(ops: seq<Kind>)
    requires NoStopsFrom(ops, 0)
    ensures Out(LdrStrA, Walk(LdrStrA, 0, ops, 0)) == LdrStrForm(ops)
  {
    From0(ops);
  }
}
