/**
 * The two bracket-list validators: `validmacro` checks the head of a
 * `#define` line (`name [ param , ... ]`, starting at token 1) and
 * `validexpand` a macro use (`name [ arg , ... ]`, starting at token 0).
 * Each runs its table like `isinst` does and also counts the steps taken
 * from state 3, the state reached just after an item; the entry -4 means
 * the closing bracket was read.  The result is the count when the scan
 * ends in -4, and 0 otherwise.
 */
module MacroFsm {
  import opened Tokens
  import opened TokenFsm

  /** The state just after an item (`PARAM_FOUND`, `ARG_FOUND`). */
  const Found := 3
  /** The entry that records the closing bracket. */
  const Closed := -4

  /** `macros`: only rows 0-4 are written out; row 4 is dead and no entry leads to it. */
  const Macros: Table := [
    //       dat   txt   lab   str   ins   cmt   reg   cma   num     [     ]     !   idt   bad   end
    /*  0 */ [  -1,   -1,   -1,   -1,   -1,   -1,   -1,   -1,   -1,   -1,   -1,   -1,    1,   -1,   -1],
    /*  1 */ [  -1,   -1,   -1,   -1,   -1,   -1,   -1,   -1,   -1,    2,   -1,   -1,   -1,   -1,   -1],
    /*  2 */ [  -1,   -1,   -1,   -1,   -1,   -1,   -1,   -1,   -1,   -1,   -1,   -1,    3,   -1,   -1],  // looking for a parameter
    /*  3 */ [  -1,   -1,   -1,   -1,   -1,   -1,   -1,    2,   -1,   -1,   -4,   -1,   -1,   -1,   -1],  // a parameter between [ and ]
    /*  4 */ [  -1,   -1,   -1,   -1,   -1,   -1,   -1,   -1,   -1,   -1,   -1,   -1,   -1,   -1,   -1],
    /*  5 */ [   0,    0,    0,    0,    0,    0,    0,    0,    0,    0,    0,    0,    0,    0,    0],
    /*  6 */ [   0,    0,    0,    0,    0,    0,    0,    0,    0,    0,    0,    0,    0,    0,    0],
    /*  7 */ [   0,    0,    0,    0,    0,    0,    0,    0,    0,    0,    0,    0,    0,    0,    0],
    /*  8 */ [   0,    0,    0,    0,    0,    0,    0,    0,    0,    0,    0,    0,    0,    0,    0],
    /*  9 */ [   0,    0,    0,    0,    0,    0,    0,    0,    0,    0,    0,    0,    0,    0,    0] 
  ]

  /** `expands`: as `macros`, except that an argument may be of five kinds. */
  const Expands: Table := [
    //       dat   txt   lab   str   ins   cmt   reg   cma   num     [     ]     !   idt   bad   end
    /*  0 */ [  -1,   -1,   -1,   -1,   -1,   -1,   -1,   -1,   -1,   -1,   -1,   -1,    1,   -1,   -1],
    /*  1 */ [  -1,   -1,   -1,   -1,   -1,   -1,   -1,   -1,   -1,    2,   -1,   -1,   -1,   -1,   -1],
    /*  2 */ [  -1,   -1,   -1,    3,    3,   -1,    3,   -1,    3,   -1,   -1,   -1,    3,   -1,   -1],  // looking for an argument
    /*  3 */ [  -1,   -1,   -1,   -1,   -1,   -1,   -1,    2,   -1,   -1,   -4,   -1,   -1,   -1,   -1],  // an argument between [ and ]
    /*  4 */ [  -1,   -1,   -1,   -1,   -1,   -1,   -1,   -1,   -1,   -1,   -1,   -1,   -1,   -1,   -1],
    /*  5 */ [   0,    0,    0,    0,    0,    0,    0,    0,    0,    0,    0,    0,    0,    0,    0],
    /*  6 */ [   0,    0,    0,    0,    0,    0,    0,    0,    0,    0,    0,    0,    0,    0,    0],
    /*  7 */ [   0,    0,    0,    0,    0,    0,    0,    0,    0,    0,    0,    0,    0,    0,    0],
    /*  8 */ [   0,    0,    0,    0,    0,    0,    0,    0,    0,    0,    0,    0,    0,    0,    0],
    /*  9 */ [   0,    0,    0,    0,    0,    0,    0,    0,    0,    0,    0,    0,    0,    0,    0] 
  ]

  /** The kinds a `#define` parameter may be. */
  const ParamKinds: set<Kind> := {Ident}
  /** The kinds a macro argument may be. */
  const ArgKinds: set<Kind> := {Str, Inst, Reg, Num, Ident}

  /** `toks[i..]` begins with `item (, item)* ]` holding exactly `k` items. */
  predicate ItemsFrom(toks: seq<Kind>, i: nat, k: nat, items: set<Kind>)
    decreases k
  {
    k >= 1 && i + 1 < |toks| && toks[i] in items &&
    if k == 1 then toks[i + 1] == RBrack
    else toks[i + 1] == Comma && ItemsFrom(toks, i + 2, k - 1, items)
  }

  /** `toks[from..]` begins with `ident [ item (, item)* ]` holding exactly `k` items. */
  predicate IsList(toks: seq<Kind>, from: nat, k: nat, items: set<Kind>)
  {
    from + 1 < |toks| && toks[from] == Ident && toks[from + 1] == LBrack &&
    ItemsFrom(toks, from + 2, k, items)
  }

  /** The index just past the `]` of a list of `k` items starting at `from`. */
  function ListEnd(from: nat, k: nat): (e: nat)
  {
    from + 2 * k + 2
  }

  /** What the loop ends in: its final state, and how many of its steps started in `Found`. */
  datatype Outcome = Outcome(state: int, count: nat)

  /**
   * The validators' loop from state `s` at token `i`: the same walk as
   * `Scan`, counting the steps that start in `Found`.
   */
  function CountScan(T: Table, s: int, toks: seq<Kind>, i: nat): (o: Outcome)
    requires i <= |toks| && (s < 0 || HasStop(toks, i))
    ensures o.state == Scan(T, s, toks, i)
    ensures s != Found ==> o.count <= |toks| - i
    ensures o.count <= |toks| - i + 1
    ensures s >= 0 ==> o.count <= FirstStop(toks, i) - i
    decreases |toks| - i
  {
    if s < 0 || IsStop(toks[i]) then Outcome(s, 0)
    else
      var o := CountScan(T, Next(T, s, toks[i]), toks, i + 1);
      Outcome(o.state, o.count + if s == Found then 1 else 0)
  }

  /** An entry of `T` equal to `Closed` sits only in row `Found`, in the `]` column. */
  predicate ClosedOnlyAfterItem(T: Table)
  {
    forall s, c :: 0 <= s < |T| && 0 <= c < |T[s]| && T[s][c] == Closed ==> s == Found && c == Col(RBrack)
  }

  /** No entry of `T` leads to row `r`. */
  predicate Unreached(T: Table, r: int)
  {
    forall s, c :: 0 <= s < |T| && 0 <= c < |T[s]| ==> T[s][c] != r
  }

  /**
   * A table of the bracket-list kind for the item kinds `items`: `ident`,
   * then `[`, then items separated by commas up to `]`; every other entry
   * of rows 0-3 is the dead -1.
   */
  predicate ListTable(T: Table, items: set<Kind>)
  {
    WellFormed(T, Closed) && ClosedOnlyAfterItem(T) &&
    (forall k :: k in items ==> !IsStop(k) && k != Comma && k != RBrack) &&
    Next(T, 0, End) == -1 && Next(T, 0, Comment) == -1 &&
    Next(T, 0, Ident) == 1 && OnlyLive(T, 0, {Ident}) &&
    Next(T, 1, LBrack) == 2 && OnlyLive(T, 1, {LBrack}) &&
    (forall k :: k in items ==> Next(T, 2, k) == Found) && OnlyLive(T, 2, items) &&
    Next(T, 3, Comma) == 2 && Next(T, 3, RBrack) == Closed && OnlyLive(T, 3, {Comma, RBrack})
  }

  /** `macros` has ten rows; the first five are written out. */
  lemma MacrosShape()
    ensures |Macros| == 10 && WellFormed(Macros, Closed) && RowsWritten(Macros, 5)
  {
    forall s | 0 <= s < |Macros| ensures RowOk(Macros, s, Closed) && RowWritten(Macros, s, 5) {
      if s == 0 {} else if s == 1 {} else if s == 2 {} else if s == 3 {} else if s == 4 {}
      else if s == 5 {} else if s == 6 {} else if s == 7 {} else if s == 8 {} else {}
    }
  }

  /** In `macros` the entry -4 appears once, after an item in the `]` column, and row 4 is never entered. */
  lemma MacrosMarkers()
    ensures ClosedOnlyAfterItem(Macros) && Unreached(Macros, 4)
  {
    forall s, c | 0 <= s < |Macros| && 0 <= c < |Macros[s]|
      ensures Macros[s][c] != 4 && (Macros[s][c] == Closed ==> s == Found && c == Col(RBrack))
    {
      if s == 0 {} else if s == 1 {} else if s == 2 {} else if s == 3 {} else if s == 4 {}
      else if s == 5 {} else if s == 6 {} else if s == 7 {} else if s == 8 {} else {}
    }
  }

  /** `expands` has ten rows; the first five are written out. */
  lemma ExpandsShape()
    ensures |Expands| == 10 && WellFormed(Expands, Closed) && RowsWritten(Expands, 5)
  {
    forall s | 0 <= s < |Expands| ensures RowOk(Expands, s, Closed) && RowWritten(Expands, s, 5) {
      if s == 0 {} else if s == 1 {} else if s == 2 {} else if s == 3 {} else if s == 4 {}
      else if s == 5 {} else if s == 6 {} else if s == 7 {} else if s == 8 {} else {}
    }
  }

  /** In `expands` the entry -4 appears once, after an item in the `]` column, and row 4 is never entered. */
  lemma ExpandsMarkers()
    ensures ClosedOnlyAfterItem(Expands) && Unreached(Expands, 4)
  {
    forall s, c | 0 <= s < |Expands| && 0 <= c < |Expands[s]|
      ensures Expands[s][c] != 4 && (Expands[s][c] == Closed ==> s == Found && c == Col(RBrack))
    {
      if s == 0 {} else if s == 1 {} else if s == 2 {} else if s == 3 {} else if s == 4 {}
      else if s == 5 {} else if s == 6 {} else if s == 7 {} else if s == 8 {} else {}
    }
  }

  lemma MacrosRow0()
    ensures OnlyLive(Macros, 0, {Ident}) && Next(Macros, 0, Ident) == 1
  {
  }

  lemma MacrosRow1()
    ensures OnlyLive(Macros, 1, {LBrack}) && Next(Macros, 1, LBrack) == 2
  {
  }

  lemma MacrosRow2()
    ensures OnlyLive(Macros, 2, ParamKinds) && Next(Macros, 2, Ident) == Found
  {
  }

  lemma MacrosRow3()
    ensures OnlyLive(Macros, 3, {Comma, RBrack}) && Next(Macros, 3, Comma) == 2 && Next(Macros, 3, RBrack) == Closed
  {
  }

  /** `macros` is the bracket-list table for parameters. */
  lemma MacrosAreLists()
    ensures ListTable(Macros, ParamKinds)
  {
    MacrosShape();
    MacrosMarkers();
    MacrosRow0();
    MacrosRow1();
    MacrosRow2();
    MacrosRow3();
  }

  lemma ExpandsRow2()
    ensures OnlyLive(Expands, 2, ArgKinds)
    ensures forall k :: k in ArgKinds ==> Next(Expands, 2, k) == Found
  {
  }

  lemma ExpandsRow0()
    ensures OnlyLive(Expands, 0, {Ident}) && Next(Expands, 0, Ident) == 1
  {
  }

  lemma ExpandsRow1()
    ensures OnlyLive(Expands, 1, {LBrack}) && Next(Expands, 1, LBrack) == 2
  {
  }

  lemma ExpandsRow3()
    ensures OnlyLive(Expands, 3, {Comma, RBrack}) && Next(Expands, 3, Comma) == 2 && Next(Expands, 3, RBrack) == Closed
  {
  }

  /** `expands` is the bracket-list table for arguments. */
  lemma ExpandsAreLists()
    ensures ListTable(Expands, ArgKinds)
  {
    ExpandsShape();
    ExpandsMarkers();
    ExpandsRow0();
    ExpandsRow1();
    ExpandsRow2();
    ExpandsRow3();
  }

  /** A list of `k` items from `i` ends within the sequence. */
  lemma {:induction false} ItemsWithin(toks: seq<Kind>, i: nat, k: nat, items: set<Kind>)
    requires ItemsFrom(toks, i, k, items)
    ensures i + 2 * k <= |toks|
    decreases k
  {
    if k > 1 {
      ItemsWithin(toks, i + 2, k - 1, items);
    }
  }

  /** From state 2 at token `i`: a scan that closes the bracket has read exactly `count` items. */
  lemma {:induction false} ItemsSound(T: Table, items: set<Kind>, toks: seq<Kind>, i: nat)
    requires ListTable(T, items) && HasStop(toks, i)
    ensures CountScan(T, 2, toks, i).state == Closed ==> ItemsFrom(toks, i, CountScan(T, 2, toks, i).count, items)
    decreases |toks| - i
  {
    if !IsStop(toks[i]) && toks[i] in items {
      if !IsStop(toks[i + 1]) {
        if toks[i + 1] == Comma {
          ItemsSound(T, items, toks, i + 2);
        } else if toks[i + 1] == RBrack {
          assert CountScan(T, Closed, toks, i + 2) == Outcome(Closed, 0);
        } else {
          assert CountScan(T, -1, toks, i + 2) == Outcome(-1, 0);
        }
      }
    } else if !IsStop(toks[i]) {
      assert CountScan(T, -1, toks, i + 1) == Outcome(-1, 0);
    }
  }

  /** From state 2 at token `i`: a list of `k` items closes the bracket having counted `k`. */
  lemma {:induction false} ItemsComplete(T: Table, items: set<Kind>, toks: seq<Kind>, i: nat, k: nat)
    requires ListTable(T, items) && HasStop(toks, i) && ItemsFrom(toks, i, k, items)
    ensures CountScan(T, 2, toks, i) == Outcome(Closed, k)
    decreases k
  {
    assert !IsStop(toks[i]) && !IsStop(toks[i + 1]);
    if k == 1 {
      assert CountScan(T, Closed, toks, i + 2) == Outcome(Closed, 0);
    } else {
      assert HasStop(toks, i + 2) by {
        var f := FirstStop(toks, i);
        assert i + 2 <= f;
      }
      ItemsComplete(T, items, toks, i + 2, k - 1);
    }
  }

  /**
   * The language of a bracket-list table: read from token `from`, the scan
   * ends in `Closed` exactly when the tokens there form a list, and its
   * count is then the number of items, at least one.
   */
  lemma ListLanguage(T: Table, items: set<Kind>, toks: seq<Kind>, from: nat)
    requires ListTable(T, items) && HasStop(toks, from)
    ensures from + 1 <= |toks| && (Next(T, 0, toks[from]) < 0 || HasStop(toks, from + 1))
    ensures var o := CountScan(T, Next(T, 0, toks[from]), toks, from + 1);
      o.state == Closed ==> o.count >= 1 && IsList(toks, from, o.count, items)
    ensures forall k :: IsList(toks, from, k, items) ==>
      CountScan(T, Next(T, 0, toks[from]), toks, from + 1) == Outcome(Closed, k)
  {
    DriverIsWalk(T, toks, from);
    var o := CountScan(T, Next(T, 0, toks[from]), toks, from + 1);
    if toks[from] == Ident && !IsStop(toks[from + 1]) && toks[from + 1] == LBrack {
      assert HasStop(toks, from + 2) by {
        var f := FirstStop(toks, from);
        assert from + 2 <= f;
      }
      assert o == CountScan(T, 2, toks, from + 2);
      ItemsSound(T, items, toks, from + 2);
      forall k | IsList(toks, from, k, items) ensures o == Outcome(Closed, k) {
        ItemsComplete(T, items, toks, from + 2, k);
      }
    } else if toks[from] == Ident && !IsStop(toks[from + 1]) {
      assert CountScan(T, -1, toks, from + 2) == Outcome(-1, 0);
    } else if toks[from] != Ident && !IsStop(toks[from]) {
      assert Next(T, 0, toks[from]) < 0 && Next(T, 0, toks[from]) != Closed;
    }
  }

  /** `[]` is not a list: with no item before `]` the result is 0. */
  lemma EmptyListRejected(T: Table, items: set<Kind>, toks: seq<Kind>, from: nat)
    requires ListTable(T, items) && HasStop(toks, from)
    requires from + 2 < |toks| && toks[from + 2] == RBrack
    ensures from + 1 <= |toks| && (Next(T, 0, toks[from]) < 0 || HasStop(toks, from + 1))
    ensures CountScan(T, Next(T, 0, toks[from]), toks, from + 1).state != Closed
  {
    ListLanguage(T, items, toks, from);
  }

  /** What follows the `]` of a list is never read: changing it changes nothing. */
  lemma AfterBracketIgnored(T: Table, items: set<Kind>, toks: seq<Kind>, toks': seq<Kind>, from: nat, k: nat)
    requires ListTable(T, items) && HasStop(toks, from) && HasStop(toks', from)
    requires IsList(toks, from, k, items) && ListEnd(from, k) <= |toks|
    requires ListEnd(from, k) <= |toks'| && toks'[..ListEnd(from, k)] == toks[..ListEnd(from, k)]
    ensures from + 1 <= |toks'| && (Next(T, 0, toks'[from]) < 0 || HasStop(toks', from + 1))
    ensures CountScan(T, Next(T, 0, toks'[from]), toks', from + 1) == Outcome(Closed, k)
  {
    ItemsPrefix(toks, toks', from + 2, k, items, ListEnd(from, k));
    assert toks'[from] == toks[from] && toks'[from + 1] == toks[from + 1] by {
      assert toks'[..ListEnd(from, k)][from] == toks[..ListEnd(from, k)][from];
      assert toks'[..ListEnd(from, k)][from + 1] == toks[..ListEnd(from, k)][from + 1];
    }
    ListLanguage(T, items, toks', from);
  }

  /** A list's items lie before its end, so a sequence sharing that prefix holds the same items. */
  lemma {:induction false} ItemsPrefix(toks: seq<Kind>, toks': seq<Kind>, i: nat, k: nat, items: set<Kind>, e: nat)
    requires ItemsFrom(toks, i, k, items) && i + 2 * k <= e <= |toks'| && e <= |toks|
    requires toks'[..e] == toks[..e]
    ensures ItemsFrom(toks', i, k, items)
    decreases k
  {
    assert toks'[i] == toks'[..e][i] && toks'[i + 1] == toks'[..e][i + 1];
    assert toks[i] == toks[..e][i] && toks[i + 1] == toks[..e][i + 1];
    if k > 1 {
      ItemsPrefix(toks, toks', i + 2, k - 1, items, e);
    }
  }

  /**
   * The loop `validmacro` and `validexpand` share: the first lookup at
   * token `from`, then, while the state is live and the token is not End
   * or Comment, a count of each step taken from `Found` and one lookup per
   * token.
   */
  method CountTokens(T: Table, toks: seq<Kind>, from: nat) returns (s: int, count: nat)
    requires WellFormed(T, Closed) && Next(T, 0, End) < 0 && Next(T, 0, Comment) < 0
    requires HasStop(toks, from)
    ensures from + 1 <= |toks| && (Next(T, 0, toks[from]) < 0 || HasStop(toks, from + 1))
    ensures Outcome(s, count) == CountScan(T, Next(T, 0, toks[from]), toks, from + 1)
  {
    var i := from;
    assert RowOk(T, 0, Closed);
    s := T[0][Col(toks[i])];
    i := i + 1;
    count := 0;
    ghost var first := s;
    DriverIsWalk(T, toks, from);
    while s >= 0 && toks[i] != End && toks[i] != Comment
      invariant from + 1 <= i <= |toks|
      invariant s < |T| && (s >= 0 ==> HasStop(toks, i))
      invariant CountScan(T, s, toks, i).state == CountScan(T, first, toks, from + 1).state
      invariant count + CountScan(T, s, toks, i).count == CountScan(T, first, toks, from + 1).count
      decreases |toks| - i
    {
      ScanStep(T, Closed, s, toks, i);
      if s == Found {
        count := count + 1;
      }
      s := T[s][Col(toks[i])];
      i := i + 1;
    }
  }

  /**
   * The return expression both validators share: the count when the scan
   * ended in `Closed`, 0 otherwise.  For a bracket-list table this is the
   * number of items of the list at `from`, or 0 when there is none.
   */
  method CountList(T: Table, items: set<Kind>, toks: seq<Kind>, from: nat) returns (n: int)
    requires ListTable(T, items) && HasStop(toks, from)
    ensures n >= 0
    ensures n > 0 ==> IsList(toks, from, n, items)
    ensures forall k :: IsList(toks, from, k, items) ==> n == k
  {
    var s, count := CountTokens(T, toks, from);
    n := if s == Closed then count else 0;
    ListLanguage(T, items, toks, from);
  }

  /**
   * `validmacro`: token 0 is the directive, the list starts at token 1.
   * The result is the number of parameters of a well-formed head, and 0
   * for anything else.
   */
  method ValidMacro(t: TokenLine) returns (n: int)
    requires HasStop(t.toks, 1)
    ensures n >= 0
    ensures n > 0 ==> IsList(t.toks, 1, n, ParamKinds)
    ensures forall k :: IsList(t.toks, 1, k, ParamKinds) ==> n == k
  {
    MacrosAreLists();
    n := CountList(Macros, ParamKinds, t.toks, 1);
  }

  /**
   * `validexpand`: the list starts at token 0, the macro's name.  The
   * result is the number of arguments of a well-formed use, and 0 for
   * anything else.
   */
  method ValidExpand(t: TokenLine) returns (n: int)
    requires HasStop(t.toks, 0)
    ensures n >= 0
    ensures n > 0 ==> IsList(t.toks, 0, n, ArgKinds)
    ensures forall k :: IsList(t.toks, 0, k, ArgKinds) ==> n == k
  {
    ExpandsAreLists();
    n := CountList(Expands, ArgKinds, t.toks, 0);
  }
}
