/**
 * The five instruction tables of chasm2/fsms.c, with the C declarations'
 * shapes (unwritten rows are zero), and for each one an independent list
 * of the operand forms it is meant to accept and the encoding selector
 * each form yields.
 */
module InstTables {
  import opened Tokens
  import opened TokenFsm

  /** `ariloga`: arithmetic and logic, `op r, r, r` and `op r, r, #n`. */
  const AriLogA: Table := [
    //       dat   txt   lab   str   ins   cmt   reg   cma   num     [     ]     !   idt   bad   end
    /*  0 */ [  -1,   -1,   -1,   -1,   -1,   -1,    1,   -1,   -1,   -1,   -1,   -1,   -1,   -1,   -1],
    /*  1 */ [  -1,   -1,   -1,   -1,   -1,   -1,   -1,    2,   -1,   -1,   -1,   -1,   -1,   -1,   -1],
    /*  2 */ [  -1,   -1,   -1,   -1,   -1,   -1,    3,   -1,   -1,   -1,   -1,   -1,   -1,   -1,   -1],
    /*  3 */ [  -1,   -1,   -1,   -1,   -1,   -1,   -1,    4,   -1,   -1,   -1,   -1,   -1,   -1,   -1],
    /*  4 */ [  -1,   -1,   -1,   -1,   -1,   -1,    5,   -1,    5,   -1,   -1,   -1,   -1,   -1,   -1],
    /*  5 */ [  -1,   -1,   -1,   -1,   -1,   -1,   -1,   -1,   -1,   -1,   -1,   -1,   -1,   -1, 0x00],
    /*  6 */ [   0,    0,    0,    0,    0,    0,    0,    0,    0,    0,    0,    0,    0,    0,    0],
    /*  7 */ [   0,    0,    0,    0,    0,    0,    0,    0,    0,    0,    0,    0,    0,    0,    0],
    /*  8 */ [   0,    0,    0,    0,    0,    0,    0,    0,    0,    0,    0,    0,    0,    0,    0],
    /*  9 */ [   0,    0,    0,    0,    0,    0,    0,    0,    0,    0,    0,    0,    0,    0,    0] 
  ]

  /** `movcmpa`: moves and compares. */
  const MovCmpA: Table := [
    //       dat   txt   lab   str   ins   cmt   reg   cma   num     [     ]     !   idt   bad   end
    /*  0 */ [  -1,   -1,   -1,   -1,   -1,   -1,    1,   -1,   -1,   -1,   -1,   -1,   -1,   -1,   -1],
    /*  1 */ [  -1,   -1,   -1,   -1,   -1,   -1,   -1,    2,   -1,   -1,   -1,   -1,   -1,   -1,   -1],
    /*  2 */ [  -1,   -1,   -1,   -1,   -1,   -1,    3,   -1,    4,   -1,   -1,   -1,    4,   -1,   -1],
    /*  3 */ [  -1,   -1,   -1,   -1,   -1,   -1,   -1,   -1,   -1,   -1,   -1,   -1,   -1,   -1, 0x70],  // r, r
    /*  4 */ [  -1,   -1,   -1,   -1,   -1,   -1,   -1,   -1,   -1,   -1,   -1,   -1,   -1,   -1, 0x80],  // r, #n
    /*  5 */ [   0,    0,    0,    0,    0,    0,    0,    0,    0,    0,    0,    0,    0,    0,    0],
    /*  6 */ [   0,    0,    0,    0,    0,    0,    0,    0,    0,    0,    0,    0,    0,    0,    0],
    /*  7 */ [   0,    0,    0,    0,    0,    0,    0,    0,    0,    0,    0,    0,    0,    0,    0],
    /*  8 */ [   0,    0,    0,    0,    0,    0,    0,    0,    0,    0,    0,    0,    0,    0,    0],
    /*  9 */ [   0,    0,    0,    0,    0,    0,    0,    0,    0,    0,    0,    0,    0,    0,    0] 
  ]

  /** `brancha`: branches to a label, through a register, or to a long `!` label. */
  const BranchA: Table := [
    //       dat   txt   lab   str   ins   cmt   reg   cma   num     [     ]     !   idt   bad   end
    /*  0 */ [  -1,   -1,   -1,   -1,   -1,   -1,   -1,   -1,    4,    1,   -1,    5,    4,   -1,   -1],
    /*  1 */ [  -1,   -1,   -1,   -1,   -1,   -1,    2,   -1,   -1,   -1,   -1,   -1,   -1,   -1,   -1],
    /*  2 */ [  -1,   -1,   -1,   -1,   -1,   -1,   -1,   -1,   -1,   -1,    3,   -1,   -1,   -1,   -1],
    /*  3 */ [  -1,   -1,   -1,   -1,   -1,   -1,   -1,   -1,   -1,   -1,   -1,   -1,   -1,   -1, 0xa0],  // b [r]
    /*  4 */ [  -1,   -1,   -1,   -1,   -1,   -1,   -1,   -1,   -1,   -1,   -1,   -1,   -1,   -1, 0x90],  // b label
    /*  5 */ [  -1,   -1,   -1,   -1,   -1,   -1,   -1,   -1,   -1,   -1,   -1,   -1,    6,   -1,   -1],
    /*  6 */ [  -1,   -1,   -1,   -1,   -1,   -1,   -1,   -1,   -1,   -1,   -1,   -1,   -1,   -1, 0xb0],  // b !label
    /*  7 */ [   0,    0,    0,    0,    0,    0,    0,    0,    0,    0,    0,    0,    0,    0,    0],
    /*  8 */ [   0,    0,    0,    0,    0,    0,    0,    0,    0,    0,    0,    0,    0,    0,    0],
    /*  9 */ [   0,    0,    0,    0,    0,    0,    0,    0,    0,    0,    0,    0,    0,    0,    0] 
  ]

  /** `ldrstra`: loads and stores with their addressing modes. */
  const LdrStrA: Table := [
    //       dat   txt   lab   str   ins   cmt   reg   cma   num     [     ]     !   idt   bad   end
    /*  0 */ [  -1,   -1,   -1,   -1,   -1,   -1,    1,   -1,   -1,   -1,   -1,   -1,   -1,   -1,   -1],
    /*  1 */ [  -1,   -1,   -1,   -1,   -1,   -1,   -1,    2,   -1,   -1,   -1,   -1,   -1,   -1,   -1],
    /*  2 */ [  -1,   -1,   -1,   -1,   -1,   -1,   -1,   -1,    8,    3,   -1,   20,    8,   -1,   -1],
    /*  3 */ [  -1,   -1,   -1,   -1,   -1,   -1,    4,   -1,   -1,   -1,   -1,   -1,   -1,   -1,   -1],
    /*  4 */ [  -1,   -1,   -1,   -1,   -1,   -1,   -1,    5,   -1,   -1,    9,   -1,   -1,   -1,   -1],
    /*  5 */ [  -1,   -1,   -1,   -1,   -1,   -1,    6,   -1,    7,   -1,   -1,   -1,   -1,   -1,   -1],
    /*  6 */ [  -1,   -1,   -1,   -1,   -1,   -1,   -1,   17,   -1,   -1,   11,   -1,   -1,   -1,   -1],
    /*  7 */ [  -1,   -1,   -1,   -1,   -1,   -1,   -1,   -1,   -1,   -1,   10,   -1,   -1,   -1,   -1],
    /*  8 */ [  -1,   -1,   -1,   -1,   -1,   -1,   -1,   -1,   -1,   -1,   -1,   -1,   -1,   -1, 0x00],  // r, addr
    /*  9 */ [  -1,   -1,   -1,   -1,   -1,   -1,   -1,   14,   -1,   -1,   -1,   -1,   -1,   -1, 0x01],  // r, [r]
    /* 10 */ [  -1,   -1,   -1,   -1,   -1,   -1,   -1,   -1,   -1,   -1,   -1,   12,   -1,   -1, 0x02],  // r, [r, #n]
    /* 11 */ [  -1,   -1,   -1,   -1,   -1,   -1,   -1,   -1,   -1,   -1,   -1,   13,   -1,   -1, 0x03],  // r, [r, r]
    /* 12 */ [  -1,   -1,   -1,   -1,   -1,   -1,   -1,   -1,   -1,   -1,   -1,   -1,   -1,   -1, 0x04],  // r, [r, #n]!
    /* 13 */ [  -1,   -1,   -1,   -1,   -1,   -1,   -1,   -1,   -1,   -1,   -1,   -1,   -1,   -1, 0x05],  // r, [r, r]!
    /* 14 */ [  -1,   -1,   -1,   -1,   -1,   -1,   16,   -1,   15,   -1,   -1,   -1,   -1,   -1,   -1],  // r, [r],
    /* 15 */ [  -1,   -1,   -1,   -1,   -1,   -1,   -1,   -1,   -1,   -1,   -1,   -1,   -1,   -1, 0x06],  // r, [r], #n
    /* 16 */ [  -1,   -1,   -1,   -1,   -1,   -1,   -1,   -1,   -1,   -1,   -1,   -1,   -1,   -1, 0x07],  // r, [r], r
    /* 17 */ [  -1,   -1,   -1,   -1,   -1,   -1,   -1,   -1,   18,   -1,   -1,   -1,   -1,   -1,   -1],  // r, [r, r,
    /* 18 */ [  -1,   -1,   -1,   -1,   -1,   -1,   -1,   -1,   -1,   -1,   19,   -1,   -1,   -1,   -1],  // r, [r, r, #n
    /* 19 */ [  -1,   -1,   -1,   -1,   -1,   -1,   -1,   -1,   -1,   -1,   -1,   -1,   -1,   -1, 0x08],  // r, [r, r, #n]
    /* 20 */ [  -1,   -1,   -1,   -1,   -1,   -1,   -1,   -1,   -1,   -1,   -1,   -1,   21,   -1,   -1],  // r, !
    /* 21 */ [  -1,   -1,   -1,   -1,   -1,   -1,   -1,   -1,   -1,   -1,   -1,   -1,   -1,   -1, 0x09]   // r, !id
  ]

  /** `miscosa`: the operating-system instructions. */
  const MiscOsA: Table := [
    //       dat   txt   lab   str   ins   cmt   reg   cma   num     [     ]     !   idt   bad   end
    /*  0 */ [  -1,   -1,   -1,   -1,   -1,   -1,    2,   -1,    1,   -1,   -1,   -1,   -1,   -1,   -1],
    /*  1 */ [  -1,   -1,   -1,   -1,   -1,   -1,   -1,   -1,   -1,   -1,   -1,   -1,   -1,   -1, 0x00],  // ker #n
    /*  2 */ [  -1,   -1,   -1,   -1,   -1,   -1,   -1,    3,   -1,   -1,   -1,   -1,   -1,   -1,   -1],
    /*  3 */ [  -1,   -1,   -1,   -1,   -1,   -1,    4,   -1,   -1,   -1,   -1,   -1,   -1,   -1,   -1],
    /*  4 */ [  -1,   -1,   -1,   -1,   -1,   -1,   -1,   -1,   -1,   -1,   -1,   -1,   -1,   -1, 0x00],  // mks r, r
    /*  5 */ [   0,    0,    0,    0,    0,    0,    0,    0,    0,    0,    0,    0,    0,    0,    0],
    /*  6 */ [   0,    0,    0,    0,    0,    0,    0,    0,    0,    0,    0,    0,    0,    0,    0],
    /*  7 */ [   0,    0,    0,    0,    0,    0,    0,    0,    0,    0,    0,    0,    0,    0,    0],
    /*  8 */ [   0,    0,    0,    0,    0,    0,    0,    0,    0,    0,    0,    0,    0,    0,    0],
    /*  9 */ [   0,    0,    0,    0,    0,    0,    0,    0,    0,    0,    0,    0,    0,    0,    0] 
  ]

  /** Three registers, or two registers and a number: selector 0. */
  function AluForm(ops: seq<Kind>): (sel: Option<CInt>)
  {
    if |ops| == 5 && ops[0] == Reg && ops[1] == Comma && ops[2] == Reg && ops[3] == Comma
       && (ops[4] == Reg || ops[4] == Num)
    then Some(0x00)
    else None
  }

  /** `r, r` gives 0x70; `r, #n` and `r, label` give 0x80. */
  function MovCmpForm(ops: seq<Kind>): (sel: Option<CInt>)
  {
    if |ops| == 3 && ops[0] == Reg && ops[1] == Comma && ops[2] == Reg then Some(0x70)
    else if |ops| == 3 && ops[0] == Reg && ops[1] == Comma && (ops[2] == Num || ops[2] == Ident) then Some(0x80)
    else None
  }

  /** A label or address gives 0x90, `[r]` gives 0xa0, `!label` gives 0xb0. */
  function BranchForm(ops: seq<Kind>): (sel: Option<CInt>)
  {
    if |ops| == 1 && (ops[0] == Num || ops[0] == Ident) then Some(0x90)
    else if |ops| == 3 && ops[0] == LBrack && ops[1] == Reg && ops[2] == RBrack then Some(0xa0)
    else if |ops| == 2 && ops[0] == Excl && ops[1] == Ident then Some(0xb0)
    else None
  }

  /**
   * A register, a comma, and an address operand:
   *   r, addr         0x00      r, !label       0x09
   *   r, [r]          0x01      r, [r], #n      0x06      r, [r], r       0x07
   *   r, [r, #n]      0x02      r, [r, #n]!     0x04
   *   r, [r, r]       0x03      r, [r, r]!      0x05      r, [r, r, #n]   0x08
   */
  function LdrStrForm(ops: seq<Kind>): (sel: Option<CInt>)
  {
    if |ops| < 3 || ops[0] != Reg || ops[1] != Comma then None
    else if ops[2] == LBrack then BracketForm(ops)
    else if |ops| == 3 && (ops[2] == Num || ops[2] == Ident) then Some(0x00)
    else if |ops| == 4 && ops[2] == Excl && ops[3] == Ident then Some(0x09)
    else None
  }

  /** After `r, [`: a base register, then the post-indexed or the pre-indexed forms. */
  function BracketForm(ops: seq<Kind>): (sel: Option<CInt>)
  {
    if |ops| < 5 || ops[3] != Reg then None
    else if ops[4] == RBrack then PostIndexForm(ops)
    else if ops[4] == Comma then PreIndexForm(ops)
    else None
  }

  /** After `r, [r]`: nothing, or a comma and a number or register. */
  function PostIndexForm(ops: seq<Kind>): (sel: Option<CInt>)
  {
    if |ops| == 5 then Some(0x01)
    else if |ops| == 7 && ops[5] == Comma && ops[6] == Num then Some(0x06)
    else if |ops| == 7 && ops[5] == Comma && ops[6] == Reg then Some(0x07)
    else None
  }

  /** After `r, [r,`: an offset, the closing bracket and an optional `!`. */
  function PreIndexForm(ops: seq<Kind>): (sel: Option<CInt>)
  {
    if |ops| < 7 then None
    else if ops[5] == Num && ops[6] == RBrack then
      (if |ops| == 7 then Some(0x02) else if |ops| == 8 && ops[7] == Excl then Some(0x04) else None)
    else if ops[5] == Reg && ops[6] == RBrack then
      (if |ops| == 7 then Some(0x03) else if |ops| == 8 && ops[7] == Excl then Some(0x05) else None)
    else if |ops| == 9 && ops[5] == Reg && ops[6] == Comma && ops[7] == Num && ops[8] == RBrack then Some(0x08)
    else None
  }

  /** A number, or two registers: selector 0.  A lone register is not accepted. */
  function MiscOsForm(ops: seq<Kind>): (sel: Option<CInt>)
  {
    if |ops| == 1 && ops[0] == Num then Some(0x00)
    else if |ops| == 3 && ops[0] == Reg && ops[1] == Comma && ops[2] == Reg then Some(0x00)
    else None
  }

  /** `ariloga` has ten rows; the first six are written out and lead only to each other. */
  lemma AriLogShape()
    ensures |AriLogA| == 10 && WellFormed(AriLogA, -1) && RowsWritten(AriLogA, 6)
    ensures Next(AriLogA, 0, End) < 0 && Next(AriLogA, 0, Comment) < 0
  {
    forall s | 0 <= s < |AriLogA| ensures RowOk(AriLogA, s, -1) && RowWritten(AriLogA, s, 6) {
      if s == 0 {} else if s == 1 {} else if s == 2 {} else if s == 3 {} else if s == 4 {}
      else if s == 5 {} else if s == 6 {} else if s == 7 {} else if s == 8 {} else {}
    }
  }

  /** `movcmpa` has ten rows; the first five are written out and lead only to each other. */
  lemma MovCmpShape()
    ensures |MovCmpA| == 10 && WellFormed(MovCmpA, -1) && RowsWritten(MovCmpA, 5)
    ensures Next(MovCmpA, 0, End) < 0 && Next(MovCmpA, 0, Comment) < 0
  {
    forall s | 0 <= s < |MovCmpA| ensures RowOk(MovCmpA, s, -1) && RowWritten(MovCmpA, s, 5) {
      if s == 0 {} else if s == 1 {} else if s == 2 {} else if s == 3 {} else if s == 4 {}
      else if s == 5 {} else if s == 6 {} else if s == 7 {} else if s == 8 {} else {}
    }
  }

  /** `brancha` has ten rows; the first seven are written out and lead only to each other. */
  lemma BranchShape()
    ensures |BranchA| == 10 && WellFormed(BranchA, -1) && RowsWritten(BranchA, 7)
    ensures Next(BranchA, 0, End) < 0 && Next(BranchA, 0, Comment) < 0
  {
    forall s | 0 <= s < |BranchA| ensures RowOk(BranchA, s, -1) && RowWritten(BranchA, s, 7) {
      if s == 0 {} else if s == 1 {} else if s == 2 {} else if s == 3 {} else if s == 4 {}
      else if s == 5 {} else if s == 6 {} else if s == 7 {} else if s == 8 {} else {}
    }
  }

  /** `ldrstra` has twenty-two rows, all written out. */
  lemma LdrStrShape()
    ensures |LdrStrA| == 22 && WellFormed(LdrStrA, -1) && RowsWritten(LdrStrA, 22)
    ensures Next(LdrStrA, 0, End) < 0 && Next(LdrStrA, 0, Comment) < 0
  {
    forall s | 0 <= s < |LdrStrA| ensures RowOk(LdrStrA, s, -1) && RowWritten(LdrStrA, s, 22) {
      if s == 0 {} else if s == 1 {} else if s == 2 {} else if s == 3 {} else if s == 4 {}
      else if s == 5 {} else if s == 6 {} else if s == 7 {} else if s == 8 {} else if s == 9 {}
      else if s == 10 {} else if s == 11 {} else if s == 12 {} else if s == 13 {}
      else if s == 14 {} else if s == 15 {} else if s == 16 {} else if s == 17 {}
      else if s == 18 {} else if s == 19 {} else if s == 20 {} else {}
    }
  }

  /** `miscosa` has ten rows; the first five are written out and lead only to each other. */
  lemma MiscOsShape()
    ensures |MiscOsA| == 10 && WellFormed(MiscOsA, -1) && RowsWritten(MiscOsA, 5)
    ensures Next(MiscOsA, 0, End) < 0 && Next(MiscOsA, 0, Comment) < 0
  {
    forall s | 0 <= s < |MiscOsA| ensures RowOk(MiscOsA, s, -1) && RowWritten(MiscOsA, s, 5) {
      if s == 0 {} else if s == 1 {} else if s == 2 {} else if s == 3 {} else if s == 4 {}
      else if s == 5 {} else if s == 6 {} else if s == 7 {} else if s == 8 {} else {}
    }
  }
}
