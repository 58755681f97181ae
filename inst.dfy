/**
 * `isinst`: the table of the line's instruction category is run over the
 * operand tokens after the mnemonic, and the selector of the final state
 * is or-ed into the base opcode.
 */
module InstFsm {
  import opened Tokens
  import opened TokenFsm
  import opened InstTables
  import AriLogLang
  import MovCmpLang
  import BranchLang
  import LdrStrLang
  import MiscOsLang

  /** The table `isinst` runs for a category; an unrecognised category falls back to `ariloga`. */
  function TableFor(cate: Category): (T: Table)
    ensures WellFormed(T, -1) && Next(T, 0, End) < 0 && Next(T, 0, Comment) < 0
  {
    match cate
    case MovCmp => MovCmpShape(); MovCmpA
    case Branch => BranchShape(); BranchA
    case LdrStr => LdrStrShape(); LdrStrA
    case MiscOs => MiscOsShape(); MiscOsA
    case _ => AriLogShape(); AriLogA
  }

  /** The operand forms of a category, each with its selector; other categories use the arithmetic forms. */
  function FormFor(cate: Category, ops: seq<Kind>): (sel: Option<CInt>)
  {
    match cate
    case MovCmp => MovCmpForm(ops)
    case Branch => BranchForm(ops)
    case LdrStr => LdrStrForm(ops)
    case MiscOs => MiscOsForm(ops)
    case _ => AluForm(ops)
  }

  /** The table of each category accepts exactly that category's forms. */
  lemma TableMeetsForms(cate: Category, ops: seq<Kind>)
    requires NoStopsFrom(ops, 0)
    ensures Out(TableFor(cate), Walk(TableFor(cate), 0, ops, 0)) == FormFor(cate, ops)
  {
    match cate
    case MovCmp => MovCmpLang.Language(ops);
    case Branch => BranchLang.Language(ops);
    case LdrStr => LdrStrLang.Language(ops);
    case MiscOs => MiscOsLang.Language(ops);
    case _ => AriLogLang.Language(ops);
  }

  /** The table choice at the head of `isinst`: `ariloga` unless the category names another table. */
  method SelectTable(cate: Category) returns (trans: Table)
    ensures trans == TableFor(cate)
  {
    trans := AriLogA;
    if cate == AriLog {
      trans := AriLogA;
    } else if cate == MovCmp {
      trans := MovCmpA;
    } else if cate == Branch {
      trans := BranchA;
    } else if cate == LdrStr {
      trans := LdrStrA;
    } else if cate == MiscOs {
      trans := MiscOsA;
    }
  }

  /**
   * `isinst`: the table of the category is scanned from token 1 to the
   * first End or Comment, and the result is the line's operand form
   * encoded into its base opcode, or -1 when the operands fit no form.
   */
  method IsInst(t: TokenLine) returns (r: bv32)
    requires HasStop(t.toks, 1)
    ensures r == Encode(t.opcode, FormFor(t.cate, Operands(t.toks, 1)))
  {
    var trans := SelectTable(t.cate);
    r := ScanAndEncode(trans, t.opcode, t.toks);
    TableMeetsForms(t.cate, Operands(t.toks, 1));
  }

  /** The kinds an operand form is made of. */
  const OperandKinds: set<Kind> := {Reg, Comma, Num, LBrack, RBrack, Excl, Ident}

  /**
   * No form of any category holds a data, text, label, string,
   * instruction or bad token: an operand of such a kind makes the line
   * invalid.
   */
  lemma ForeignKindRejected(cate: Category, ops: seq<Kind>, j: nat)
    requires j < |ops| && ops[j] !in OperandKinds
    ensures FormFor(cate, ops) == None
  {
  }

  /** A line with no operands (End or a Comment right after the mnemonic) is invalid. */
  lemma NoOperandsInvalid(t: TokenLine)
    requires |t.toks| >= 2 && IsStop(t.toks[1])
    ensures HasStop(t.toks, 1)
    ensures Encode(t.opcode, FormFor(t.cate, Operands(t.toks, 1))) == Invalid
  {
    FirstStopIs(t.toks, 1, 1);
  }

  /**
   * When the base opcode leaves the low byte clear, the selector of an
   * accepted form lands in that byte and the opcode's bits are kept, so
   * both can be read back from the result.
   */
  lemma EncodeLossless(opcode: bv32, x: CInt)
    requires opcode & 0xFF == 0 && 0 <= x <= 0xFF
    ensures Encode(opcode, Some(x)) & 0xFF == Word(x)
    ensures Encode(opcode, Some(x)) & !0xFF == opcode
  {
    SelectorByte(x);
    OrLowByte(opcode, Word(x));
  }

  /** Every selector a form yields is a byte no larger than 0xb0, so never 0xFF. */
  lemma SelectorsSmall(cate: Category, ops: seq<Kind>)
    ensures FormFor(cate, ops).Some? ==> 0 <= FormFor(cate, ops).value <= 0xb0
  {
  }

  /**
   * When the base opcode leaves the low byte clear, `isinst` returns -1
   * exactly for the lines whose operands fit no form of their category.
   */
  lemma InvalidMeansRejected(cate: Category, opcode: bv32, ops: seq<Kind>)
    requires opcode & 0xFF == 0
    ensures Encode(opcode, FormFor(cate, ops)) == Invalid <==> FormFor(cate, ops).None?
  {
    SelectorsSmall(cate, ops);
    if FormFor(cate, ops).Some? {
      EncodeLossless(opcode, FormFor(cate, ops).value);
    }
  }

  lemma SelectorByte(x: CInt)
    requires 0 <= x <= 0xFF
    ensures Word(x) <= 0xFF
  {
  }

  lemma OrLowByte(opcode: bv32, sel: bv32)
    requires opcode & 0xFF == 0 && sel <= 0xFF
    ensures (opcode | sel) & 0xFF == sel
    ensures (opcode | sel) & !0xFF == opcode
  {
  }
}
