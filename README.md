# Table-driven automata of the chasm2 assembler front end

This project is a Dafny model of `chasm2/fsms.c`. That file holds the finite automata the assembler uses in two places:

- **Literal classifiers.** They decide whether a piece of source text is a number, a float, an identifier or a register name:
  - `isnumber` returns 10 for a decimal literal, 16 for a hexadecimal one and 0 otherwise.
  - `isfloat`, `isid` and `isreg` return 1 or 0.

  Each is a constant transition table, a character-to-letter mapper and a `while` loop that reads the NUL-terminated text one character at a time until it reaches an accepting or a dead state.
- **Token validators.** They check already-tokenized lines:
  - `isinst` picks one of five 15-column tables by instruction category. It runs the operand tokens through that table and returns the base opcode or-ed with the encoding selector of the form it recognised, or -1.
  - `validmacro` and `validexpand` check `name [ item , ... ]`. They return the number of items, or 0.

Every loop of the C is a Dafny `method` with a `while` loop. Its invariant ties the loop to a recursive function that runs the table over the rest of the input (`Run` for characters, `Scan` / `CountScan` for tokens). The tables are constant sequences, with the zero rows of the C declarations written out. The mappers are functions.

Each driver's postcondition names its result exactly. Independent reference definitions state, for every driver, which inputs it accepts:
- regular-expression-like predicates for the literals;
- a list of operand forms with their selectors for each instruction table;
- a recursive list predicate for the bracket lists.

Lemmas prove that the tables accept exactly those languages.

Layout, one module per file:

- `chars.dfy` (`Chars`): character classes, and the NUL-terminated buffer the classifiers read.
- `number.dfy`, `float.dfy`, `ident.dfy`, `register.dfy`: one module per classifier. Each holds its table, its mapper, its loop, a reference predicate, and the lemmas that relate them.
- `tokens.dfy` (`Tokens`): token kinds in column order, instruction categories, the tokenized line, and the operands of a line.
- `token_fsm.dfy` (`TokenFsm`): the token-table engine. This is the scan of the C loop as a function, the walk over the operands, and the 32-bit encoding of the result. It also holds the loop `isinst` runs, as a method over any table.
- `inst_tables.dfy` (`InstTables`): the five instruction tables, their shapes, and the operand forms each one is meant to accept.
- `arilog_lang.dfy`, `movcmp_lang.dfy`, `branch_lang.dfy`, `ldrstr_lang.dfy`, `miscos_lang.dfy`: the language of each instruction table, proved state by state.
- `inst.dfy` (`InstFsm`): `isinst` itself, and its properties.
- `macro.dfy` (`MacroFsm`): the `macros` and `expands` tables, the counting loop, `validmacro` and `validexpand`.

Where the comments in `fsms.c` disagree with what the tables do, the model follows the tables. Some consequences of the tables that a reader may not expect are listed with them:

- **Float.** The comment at line 8 lists `4.5E10`, but the float mapper (lines 81-82) knows only lowercase `e`, so `4.5E10` is rejected.
  - The `fneg` row (line 67) maps `e` straight to the accepting state. So `-`, zero or more digits, then `e` is accepted whatever comes after the `e`, for example `-1e` and `-1exyz`.
  - `fnum` and `fneg` map the terminator to the dead state, so plain integers such as `123` and `-123` are not floats.
  - A lone `.` is a float.
- **Number.** `0x` with no digits counts as hexadecimal (row `num`, then `hex` on `\0`). A minus sign before `0x` is rejected. `#-5` is decimal.
- **Identifier.** The column header at line 102 says `0-1`, but the mapper (line 110) sends every digit and `_` to that column.
- **Register.** Row `regg` (line 131) sends `0` and the digits 2-9 to `reg0` and `1` to `reg1`, which accepts one more digit from 0 to 5 (line 133). So the accepted names are exactly `r0`..`r15` without leading zeros, `r2`..`r9` included.
- **Move/compare.** The comment at line 181 describes a state `s5` for `mov r,id`. The table (line 233) sends an identifier to state 4, which has the same selector 0x80 as `r, #n`.
- **Misc-OS.** `miscosa` (lines 277-281) reaches state 2 on a register and has no End entry there (line 279), so a lone register is rejected. State 1, reached on a number, accepts only End, so `#n, r` is rejected too.
- **ALU.** `ariloga` (lines 221-226) has one path of five operands and a single End entry (line 226), so it accepts exactly `r, r, r` and `r, r, #n`; no other operand count is accepted.
- **State and letter counts.** Line 10 gives counts that match none of the tables.

## Model

| member | source | states |
|---|---|---|
| NumberFsm.Letter | chasm2/fsms.c:30-47 | every character maps to a column of `numtrans`, and to the `\0` column exactly when it is the terminator |
| NumberFsm.TableClosed | chasm2/fsms.c:19-28 | from every live state each letter leads to a state of the table, and the terminator leads to `bad`, `gud` or `gux` |
| NumberFsm.Run | chasm2/fsms.c:52-54 | the scan of a terminated buffer always ends in `bad`, `gud` or `gux`; it never runs past the terminator |
| NumberFsm.IsNumber | chasm2/fsms.c:51-56 | the loop's result is the radix of the state `Run` ends in, and is 10 for `#?-?[0-9]+`, 16 for `#?0x[0-9a-f]*`, 0 otherwise |
| NumberFsm.RunDec | chasm2/fsms.c:23 | from `dec`, the rest is accepted as decimal exactly when it is all digits |
| NumberFsm.RunHex | chasm2/fsms.c:24 | from `hex`, the rest is accepted as hexadecimal exactly when it is all hex digits |
| NumberFsm.RunNeg | chasm2/fsms.c:25 | from `neg`, the rest is decimal exactly when it is one or more digits (so `-0x1` is rejected) |
| NumberFsm.RunNum | chasm2/fsms.c:22 | from `num` (after a leading `0`), the outcome for digits, `x` and the end |
| NumberFsm.RunBody | chasm2/fsms.c:21-26 | from `pnd`, after `#`, the outcome is that of the unprefixed number |
| NumberFsm.NumberLanguage | chasm2/fsms.c:19-56 | the state the whole scan ends in has radix 10 exactly for decimal literals, 16 exactly for hexadecimal ones, else 0 |
| NumberFsm.DecimalNotHex | chasm2/fsms.c:50 | no text is both a decimal and a hexadecimal literal, so the three results are exclusive |
| FloatFsm.Letter | chasm2/fsms.c:74-87 | every character maps to a column of `floattrans`, and to the `\0` column exactly for the terminator; only lowercase `e` selects the exponent column, and uppercase `E` is `other` |
| FloatFsm.TableClosed | chasm2/fsms.c:63-72 | live rows lead to states of the table, and the terminator to `fgud` or `fbad` |
| FloatFsm.Run | chasm2/fsms.c:92-95 | the scan always ends in `fgud` or `fbad` |
| FloatFsm.IsFloat | chasm2/fsms.c:91-97 | the loop returns 1 exactly when `Run` ends in `fgud`, which is exactly when the text is a float literal in the table's sense |
| FloatFsm.DropDigit | chasm2/fsms.c:66 | a leading digit can be dropped without changing which float shape the text has |
| FloatFsm.RunExp1 | chasm2/fsms.c:70 | from `exp1`, acceptance exactly for an all-digit rest |
| FloatFsm.RunExp | chasm2/fsms.c:69-71 | from `exp`, acceptance exactly for `-?[0-9]+` |
| FloatFsm.RunFrac | chasm2/fsms.c:68 | from `frac`, acceptance exactly for digits, optionally followed by `e` and a signed exponent |
| FloatFsm.RunNum | chasm2/fsms.c:66 | from `fnum`, acceptance exactly for the point and exponent forms; the bare integer is rejected |
| FloatFsm.RunNeg | chasm2/fsms.c:67 | from `fneg`, acceptance for the point form, or digits and `e` with anything after it |
| FloatFsm.FloatLanguage | chasm2/fsms.c:63-97 | the scan accepts exactly the float literals |
| IdentFsm.Letter | chasm2/fsms.c:107-116 | every character maps to a column of `idtrans`; exactly the lowercase letters map to the letter column; digits and `_` share one column; the `\0` column is the terminator's |
| IdentFsm.TableClosed | chasm2/fsms.c:101-105 | live rows lead to states of the table, and the terminator to `idgud` or `idbad` |
| IdentFsm.Run | chasm2/fsms.c:120-122 | the scan always ends in `idgud` or `idbad` |
| IdentFsm.IsId | chasm2/fsms.c:119-124 | the loop returns 1 exactly for `[a-z][a-z0-9_]*` |
| IdentFsm.RunId | chasm2/fsms.c:104 | from `id`, acceptance exactly when the rest is made of identifier characters |
| IdentFsm.IdentLanguage | chasm2/fsms.c:101-124 | the scan accepts exactly the identifiers |
| RegisterFsm.Letter | chasm2/fsms.c:137-152 | every character maps to a column of `regtrans`, and to the `\0` column exactly for the terminator |
| RegisterFsm.TableClosed | chasm2/fsms.c:128-135 | live rows lead to states of the table, and the terminator to `reggud` or `regbad` |
| RegisterFsm.Run | chasm2/fsms.c:157-159 | the scan always ends in `reggud` or `regbad` |
| RegisterFsm.RegisterNumbers | chasm2/fsms.c:128-135 | the accepted register names are exactly `r` followed by the numeral of 0 to 15 |
| RegisterFsm.IsReg | chasm2/fsms.c:156-161 | the loop returns 1 exactly for the register names `r0`..`r15` |
| RegisterFsm.RunComplete | chasm2/fsms.c:132-134 | from `reg0` or `reg2`, acceptance exactly at the end of the text |
| RegisterFsm.RunReg1 | chasm2/fsms.c:133 | from `reg1` (after `r1`), acceptance exactly for the end or one of `0`..`5` and the end |
| RegisterFsm.RunRegG | chasm2/fsms.c:131 | from `regg` (after `r`), the outcome for each digit |
| RegisterFsm.RegisterLanguage | chasm2/fsms.c:128-161 | the scan accepts exactly the register names |
| Tokens.Col | chasm2/fsms.c:220 | every token kind has a column of the 15, and End and only End has the last one |
| Tokens.ColInjective | chasm2/fsms.c:220 | distinct token kinds have distinct columns |
| Tokens.FirstStop | chasm2/fsms.c:298 | the first End or Comment at or after an index: in range, a stop, and no stop before it |
| Tokens.Operands | chasm2/fsms.c:297-299 | the tokens a scan reads hold no stop token |
| Tokens.OperandsEndAtStop | chasm2/fsms.c:298 | End and Comment end the operands alike, and the tokens after the stop play no part |
| TokenFsm.ScanStep | chasm2/fsms.c:299 | one loop step in a well-formed table reads the current token's entry and continues from the next token |
| TokenFsm.ScanInTable | chasm2/fsms.c:297-299 | a scan in a well-formed table ends in a row of the table or in a negative entry |
| TokenFsm.ScanIsWalk | chasm2/fsms.c:298-299 | the loop up to the first stop is the walk over the operand tokens |
| TokenFsm.DriverIsWalk | chasm2/fsms.c:297-299 | the read before the loop is the walk's first step, so the whole scan yields what the walk over the operands yields |
| TokenFsm.MinusOneAbsorbs | chasm2/fsms.c:300 | -1 is the all-ones word, and any opcode or-ed with it is -1 again |
| TokenFsm.FinishEncodes | chasm2/fsms.c:300 | the return expression gives -1 for a dead state or an End entry of -1, and the opcode or-ed with the selector otherwise |
| TokenFsm.DriverEncodes | chasm2/fsms.c:296-300 | for any well-formed table, the C result encodes the selector of the walk over the operands |
| TokenFsm.ScanTokens | chasm2/fsms.c:296-299 | the loop ends in the state `Scan` gives, which is a row of the table or negative |
| TokenFsm.ScanAndEncode | chasm2/fsms.c:296-300 | the scan and return expression of `isinst` encode the selector the table gives the operands |
| InstTables.AriLogShape | chasm2/fsms.c:219-227 | `ariloga` is well formed; rows 0-5 lead only to each other, rows 6-9 are zero, and row 0 rejects End and Comment |
| InstTables.MovCmpShape | chasm2/fsms.c:229-236 | the same for `movcmpa`, with rows 0-4 written |
| InstTables.BranchShape | chasm2/fsms.c:238-247 | the same for `brancha`, with rows 0-6 written |
| InstTables.LdrStrShape | chasm2/fsms.c:249-273 | the same for `ldrstra`, with all 22 rows written |
| InstTables.MiscOsShape | chasm2/fsms.c:275-282 | the same for `miscosa`, with rows 0-4 written |
| AriLogLang.Language | chasm2/fsms.c:219-227 | `ariloga` accepts exactly `r, r, r` and `r, r, #n`, with selector 0x00 |
| MovCmpLang.Language | chasm2/fsms.c:229-236 | `movcmpa` accepts exactly `r, r` (0x70) and `r, #n` or `r, label` (0x80) |
| BranchLang.Language | chasm2/fsms.c:238-247 | `brancha` accepts exactly a number or label (0x90), `[r]` (0xa0) and `!label` (0xb0) |
| LdrStrLang.Language | chasm2/fsms.c:249-273 | `ldrstra` accepts exactly the ten load/store forms, with selectors 0x00 to 0x09 |
| MiscOsLang.Language | chasm2/fsms.c:275-282 | `miscosa` accepts exactly `#n` and `r, r`, with selector 0x00, and rejects a lone register |
| InstFsm.TableFor | chasm2/fsms.c:285-295 | the table of every category, the fallback `ariloga` included, is well formed and rejects End and Comment first |
| InstFsm.SelectTable | chasm2/fsms.c:285-295 | the if-chain picks the category's table, and `ariloga` for an unrecognised category |
| InstFsm.TableMeetsForms | chasm2/fsms.c:219-282 | each category's table accepts exactly that category's operand forms, with their selectors |
| InstFsm.IsInst | chasm2/fsms.c:284-301 | the result is the base opcode or-ed with the selector of the line's operand form, or -1 when the operands fit no form |
| InstFsm.ForeignKindRejected | chasm2/fsms.c:219-282 | an operand of kind data, text, label, string, instruction or bad makes every category reject the line |
| InstFsm.NoOperandsInvalid | chasm2/fsms.c:297-300 | a line whose mnemonic is followed at once by End or a Comment is invalid |
| InstFsm.EncodeLossless | chasm2/fsms.c:300 | for an opcode with a clear low byte, the selector lands in the low byte and the opcode's bits are kept |
| InstFsm.SelectorsSmall | chasm2/fsms.c:219-282 | every selector an instruction table yields lies between 0 and 0xb0 |
| InstFsm.InvalidMeansRejected | chasm2/fsms.c:296-300 | for an opcode with a clear low byte, `isinst` returns -1 exactly when the operands fit no form of the category |
| MacroFsm.CountScan | chasm2/fsms.c:329-333 | the counting loop ends in the state `Scan` gives, and from a live state its count is at most the number of tokens before the first End or Comment |
| MacroFsm.MacrosShape | chasm2/fsms.c:311-318 | `macros` is well formed, and rows 0-4 lead only to each other while rows 5-9 are zero |
| MacroFsm.MacrosMarkers | chasm2/fsms.c:311-318 | in `macros`, -4 appears only in state 3 under `]`, and no entry leads to row 4 |
| MacroFsm.ExpandsShape | chasm2/fsms.c:346-353 | `expands` is well formed, and rows 0-4 lead only to each other while rows 5-9 are zero |
| MacroFsm.ExpandsMarkers | chasm2/fsms.c:346-353 | in `expands`, -4 appears only in state 3 under `]`, and no entry leads to row 4 |
| MacroFsm.MacrosAreLists | chasm2/fsms.c:311-318 | `macros` reads `ident [ ident (, ident)* ]` and rejects everything else |
| MacroFsm.ExpandsAreLists | chasm2/fsms.c:346-353 | `expands` reads `ident [ arg (, arg)* ]` with arguments of kind ident, num, reg, str or ins |
| MacroFsm.ItemsSound | chasm2/fsms.c:315-333 | from state 2, a scan that reaches -4 has read a list whose item count equals the counter |
| MacroFsm.ItemsComplete | chasm2/fsms.c:315-333 | from state 2, a list of k items reaches -4 with the counter at k |
| MacroFsm.ListLanguage | chasm2/fsms.c:325-335 | the scan ends in -4 exactly on `ident [ item (, item)* ]`; the count is then the number of items, at least one |
| MacroFsm.EmptyListRejected | chasm2/fsms.c:315-316 | `ident [ ]` never reaches -4, so it yields 0 |
| MacroFsm.AfterBracketIgnored | chasm2/fsms.c:329-334 | the tokens after the closing `]` do not change the result |
| MacroFsm.CountTokens | chasm2/fsms.c:326-333 | the loop's final state and counter are those `CountScan` gives |
| MacroFsm.CountList | chasm2/fsms.c:334 | the return expression gives the item count of a well-formed list, and 0 when there is none |
| MacroFsm.ValidMacro | chasm2/fsms.c:325-335 | from token 1, the result is k > 0 exactly when the tokens begin with a parameter list of k identifiers, and 0 otherwise |
| MacroFsm.ValidExpand | chasm2/fsms.c:360-370 | from token 0, the result is k > 0 exactly when the tokens begin with an argument list of k arguments, and 0 otherwise |

## Left out

- Header files. `fsms.h` and `chasm_types.h` are not part of this model. The token kinds are taken in the column order of the table headers (line 220). A line is modelled as its category, its opcode and the kinds of its tokens: the fields `instcate`, `instopcd` and `toks[].toktype`.
- The tokenizer that fills those fields. It is not part of this model.
- `defdict.h` (a definition dictionary whose implementation is not shown), the emulator's `os.h` offsets and macros, and the `setup.py` build script. None of them is part of this model.
- Reads past the end of the input. The C relies on a NUL terminator, and on an End or Comment token at or after the start index. The model makes each a precondition:
  - no NUL inside the text, with one appended by `Chars.Terminated`;
  - `Tokens.HasStop` from index 1, or from index 0 for `validexpand`.

  The `HasStop` precondition is stronger than what the C needs. Some lines have no stop token and are still handled without reading past the array. For example, in `[Inst, Data]` the first read (line 297) returns -1 and the loop never runs. The model excludes such lines as well, rather than only the lines on which the C would read out of bounds.
- Characters. They are Dafny `char`s, compared by code point. This is the same order as C for ASCII. Signed `char` values above 127 are not distinguished.
- Table entries and words. Entries are C `int`s (`TokenFsm.CInt`), and the opcode and the result are 32-bit words. The C `int` result -1 is the all-ones word `TokenFsm.Invalid`.
- The counters `numparams` and `numargs`. Their C `int` overflow cannot arise, since a count is bounded by the number of tokens.
- Shared loops. The C repeats the scan loop in `validmacro` and `validexpand`, and the two differ only in their table and start index. The model has one counting method (`MacroFsm.CountTokens`, with `MacroFsm.CountList` for the return expression) that both call. Likewise the loop of `isinst` is one method, `TokenFsm.ScanTokens`, over whichever table `InstFsm.SelectTable` returns.
- Numeric values. The value of a number or float literal is not computed; only its classification is modelled.
- InstFsm.EncodeLossless, InstFsm.InvalidMeansRejected: they hold only for opcodes whose low byte is clear. The opcode values come from the tokenizer's instruction tables, which are not part of this model. No table yields a selector above 0xb0 (`InstFsm.SelectorsSmall`). So an accepted line can encode to -1 only when the opcode's low byte is set, as in 0xFFFFFFFF.
