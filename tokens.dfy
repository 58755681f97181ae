/** The token alphabet the instruction and macro automata read. */
module Tokens {

  /**
   * Token kinds, in the order of the lexer's enumeration; that order fixes
   * the column of each kind in every token table.
   */
  datatype Kind =
    | Data | Text | Label | Str | Inst | Comment | Reg | Comma | Num
    | LBrack | RBrack | Excl | Ident | Bad | End

  /** The number of columns of a token table: one per kind. */
  const Width: nat := 15

  /** The enumeration value of a kind, i.e. its table column. */
  function Col(k: Kind): (c: nat)
    ensures c < Width
    ensures c == Width - 1 <==> k == End
  {
    match k
    case Data => 0
    case Text => 1
    case Label => 2
    case Str => 3
    case Inst => 4
    case Comment => 5
    case Reg => 6
    case Comma => 7
    case Num => 8
    case LBrack => 9
    case RBrack => 10
    case Excl => 11
    case Ident => 12
    case Bad => 13
    case End => 14
  }

  /** Each kind has a column of its own. */
  lemma ColInjective(a: Kind, b: Kind)
    ensures Col(a) == Col(b) ==> a == b
  {
  }

  /** The kinds that end a scan: the end of the line and a trailing comment. */
  predicate IsStop(k: Kind) { k == End || k == Comment }

  /** Instruction categories the lexer assigns; any other category counts as arithmetic/logic. */
  datatype Category = AriLog | MovCmp | Branch | LdrStr | MiscOs | OtherCategory

  /**
   * A tokenized source line: the category and base opcode of its mnemonic,
   * and the kinds of its tokens (the mnemonic or macro keyword first).
   */
  datatype TokenLine = TokenLine(cate: Category, opcode: bv32, toks: seq<Kind>)

  datatype Option<T> = None | Some(value: T)

  /** Some token at index `i` or later ends the scan. */
  predicate HasStop(toks: seq<Kind>, i: nat)
  {
    exists j :: i <= j < |toks| && IsStop(toks[j])
  }

  /** The index of the first stop token at or after `i`. */
  function FirstStop(toks: seq<Kind>, i: nat): (f: nat)
    requires HasStop(toks, i)
    ensures i <= f < |toks| && IsStop(toks[f])
    ensures forall j :: i <= j < f ==> !IsStop(toks[j])
    decreases |toks| - i
  {
    if IsStop(toks[i]) then i else FirstStop(toks, i + 1)
  }

  /** No token of `ops` from index `i` on is a stop token. */
  predicate NoStopsFrom(ops: seq<Kind>, i: nat)
    decreases |ops| - i
  {
    i >= |ops| || (!IsStop(ops[i]) && NoStopsFrom(ops, i + 1))
  }

  /** The tokens a scan starting at `from` reads before its stop token. */
  function Operands(toks: seq<Kind>, from: nat): (ops: seq<Kind>)
    requires HasStop(toks, from)
    ensures NoStopsFrom(ops, 0)
    ensures ops == toks[from..FirstStop(toks, from)]
  {
    var ops := toks[from..FirstStop(toks, from)];
    NoStops(ops, 0);
    ops
  }

  lemma {:induction false} NoStops(ops: seq<Kind>, i: nat)
    requires forall j :: 0 <= j < |ops| ==> !IsStop(ops[j])
    ensures NoStopsFrom(ops, i)
    decreases |ops| - i
  {
    if i < |ops| {
      NoStops(ops, i + 1);
    }
  }

  lemma {:induction false} NoStopsAt(ops: seq<Kind>, i: nat, j: nat)
    requires NoStopsFrom(ops, i) && i <= j < |ops|
    ensures !IsStop(ops[j])
    decreases j - i
  {
    if i < j {
      NoStopsAt(ops, i + 1, j);
    }
  }

  /** The first stop from `i` is the one at `f` when none lies between. */
  lemma {:induction false} FirstStopIs(toks: seq<Kind>, i: nat, f: nat)
    requires i <= f < |toks| && IsStop(toks[f])
    requires forall j :: i <= j < f ==> !IsStop(toks[j])
    ensures HasStop(toks, i) && FirstStop(toks, i) == f
    decreases f - i
  {
    if i < f {
      FirstStopIs(toks, i + 1, f);
    }
  }

  /**
   * The operands of a line are the tokens between its first token and the
   * first stop, whether that stop is End or a Comment; whatever follows
   * the stop plays no part.
   */
  lemma OperandsEndAtStop(head: Kind, ops: seq<Kind>, stop: Kind, rest: seq<Kind>)
    requires NoStopsFrom(ops, 0) && IsStop(stop)
    ensures HasStop([head] + ops + [stop] + rest, 1)
    ensures Operands([head] + ops + [stop] + rest, 1) == ops
  {
    var toks := [head] + ops + [stop] + rest;
    forall j | 1 <= j < |ops| + 1 ensures !IsStop(toks[j]) {
      NoStopsAt(ops, 0, j - 1);
    }
    FirstStopIs(toks, 1, |ops| + 1);
    assert toks[1..|ops| + 1] == ops;
  }
}
