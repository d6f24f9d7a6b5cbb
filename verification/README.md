# IndraLink interpreter core, modelled in Dafny

IndraLink is a small stack language. Its whole interpreter lives in the
header `indralink.h`. This project models that header's core as pure Dafny
functions and proves properties of the model. The core has these parts:

- **Atoms.** The tagged value `IlAtom` and its text `str()`, including
  `replaceAll`.
- **Tokenizer.** `split` is a character state machine. It yields barewords,
  string literals, array literals and comments.
- **Classifier.** `is_int`, `is_float`, `is_bool`, `is_string`, `is_array`
  and `is_comment`, plus `parse_tok`, which maps a token to an atom (array
  literals are typed element by element), and `parse`.
- **Built-ins.** `math_2ops`, `cmp_2ops` and `bool_2ops` on every operand
  type; their float path goes through the host parameter `FloatOps`. The
  stack words `dup`, `dup2`, `swap`, `drop`, `ss` and `cs`. The argument
  checks of `save`, `load` and `eval`.
- **Definitions.** `is_reserved` and `store_def`.
- **`eval`.** It works in three passes:
  1. extract `: name … ;` definitions;
  2. resolve the jump addresses of the flow words `if else endif while loop
     for next break return`;
  3. dispatch, under the cap of 2500 cycles.

  A call of a user function is a nested `eval`. The model bounds the depth of
  nesting with a fuel argument.

## Two editions

The source has a few slips (see Findings). Every pass that contains one
takes an `Edition` argument:

- `AsWritten` is the program as it stands. `Tokens(…, AsWritten)` is
  `split` as written, `Parse(…, AsWritten)` is `parse`, `Resolve(AsWritten,
  …)` applies the counting `else` rule, and `Eval(…, AsWritten, …)` is
  `eval`.
- `Corrected` repairs those slips and nothing else.

A lemma stated for every `ed` holds for the program as written. A lemma that
names `Corrected` is about the repaired reading only, and its row says so.

## Modules

| file | module | what it holds |
|---|---|---|
| `text.dfy` | `Text` | White space, digits, `find` for one character, `replaceAll`. |
| `numbers.dfy` | `Numbers` | C++ truncating `/` and `%`, `std::to_string` and `atoi` on integers. |
| `atoms.dfy` | `Atoms` | The atom datatype, the editions, the machine state (stack, symbols, functions), the built-in table, `str()`. |
| `lexer.dfy` | `Lexer` | `split`, as written and corrected. |
| `classifier.dfy` | `Classifier` | The lexical predicates, `parse_tok` and `parse`. |
| `stackops.dfy` | `StackOps` | The built-in words as functions on the stack. |
| `definitions.dfy` | `Definitions` | `store_def` and the definition-extraction pass. |
| `jumps.dfy` | `Jumps` | The jump-resolution pass, with the `else` rule of each edition. |
| `engine.dfy` | `Engine` | Dispatch, the cycle cap, calls, and `eval`. |

The remaining files hold only lemmas about these modules:

- `lexical_facts.dfy`, `scan_facts.dfy`, `array_facts.dfy` and `roundtrip.dfy`
  cover tokenizing and classifying.
- `stack_facts.dfy` covers the built-ins.
- `jump_facts.dfy` and `else_rule.dfy` cover resolution.
- `engine_facts.dfy` and `flow_facts.dfy` cover whole programs.

Floating point is a parameter, `FloatOps`. The host supplies the text of each
float result and the outcome of each float comparison.

Some behaviour is undefined in C++: popping an empty `std::vector`, or
jumping through an address that was never set. The model stops there with
`Stopped(UndefinedBehaviour)` and does not guess. The words that need a file
or the console stop with `Stopped(NotModelled)`: `load` and `eval` once their
argument is good. Running out of call depth gives `Stopped(OutOfFuel)`.

## Model

Rows whose member has no contract of its own name the lemmas that state
what it means.

| member | source | states |
|---|---|---|
| Text.FindChar | indralink.h:794-797 | `find` of one character yields -1 exactly when the character is absent, and otherwise an index holding it with no earlier occurrence. |
| Text.FindCharAt | indralink.h:794-797 | The first index holding the character is the one `find` returns. |
| Text.ReplaceAll | indralink.h:48-57 | An empty pattern leaves the text unchanged. A one-character pattern that does not occur leaves it unchanged. After replacement, a one-character pattern missing from the replacement no longer occurs. |
| Text.ReplaceCharConcat | indralink.h:48-57 | With a one-character pattern, replacing in a concatenation equals concatenating the replacements of the parts. |
| Text.ReplaceCharMeans | indralink.h:48-57 | With a one-character pattern, `replaceAll` equals an independent reading built from the end of the text: every occurrence becomes the replacement, and every other character is kept, in order. |
| Numbers.TruncDiv | indralink.h:187-203 | C++ `/` on `int`, truncating toward zero. No contract of its own; `TruncDivModLaw` states its laws. |
| Numbers.TruncMod | indralink.h:187-203 | C++ `%` on `int`, with the sign of the dividend. No contract of its own; `TruncDivModLaw` states its laws. |
| Numbers.TruncDivModLaw | indralink.h:187-203 | Integer `/` and `%` meet the C++ laws: q*b + r == a; the remainder is smaller in magnitude than the divisor and has the sign of the dividend; the quotient truncates toward zero. |
| Numbers.DigitPrefixLen | indralink.h:778-792 | The longest all-digit prefix: it is all digits, and the character after it is not a digit. |
| Numbers.Atoi | indralink.h:853-856 | `atoi` on a text that passed `is_int`: an optional `-` and the value of the digits. No contract of its own; `AtoiInvertsIntToString` states that it inverts `to_string`. |
| Numbers.IntToString | indralink.h:80-87 | `std::to_string` of an int is non-empty. It starts with `-` exactly for negative values, and the rest is all digits. |
| Numbers.NatValueOfNatToString | indralink.h:80-87 | Reading the decimal digits of a rendered natural number gives the number back. |
| Numbers.AtoiInvertsIntToString | indralink.h:853-856 | `atoi` of the text `to_string` writes for any integer is that integer. |
| Atoms.Render | indralink.h:80-145 | `IlAtom::str()`, case by case. No contract of its own; the round-trip lemmas below state what reads back. |
| Atoms.QuoteStringShape | indralink.h:88-92 | A rendered STRING holds no raw newline. A string without newlines is rendered as itself in quotes. |
| Lexer.Scan | indralink.h:661-776 | The state machine of `split`, one character per step. No contract of its own; `ScanShapes` and `ScanNoWhiteLead` are its loop invariants. |
| Lexer.SplitAsWritten | indralink.h:661-776 | As written: every token `split` yields is non-empty and has the shape its first character announces: a quoted string ends in `"`, an array in `]`, a `(` comment in `)`, and a bareword holds no white space. |
| Lexer.Split | indralink.h:661-776 | Corrected: the tokenizer yields tokens of the same shapes, and no token starts with white space. |
| Lexer.SplitAgrees | indralink.h:673-681 | On input that does not start with white space, the tokenizer as written and the corrected one give the same tokens. |
| Lexer.ScanShapes | indralink.h:674-776 | Invariant of the scanning loop: the tokens emitted so far have their shape, and so do the tokens still to be emitted. |
| Lexer.ScanNoWhiteLead | indralink.h:676-703 | Invariant of the corrected scanning loop: no emitted token starts with white space. |
| Lexer.OpenStringYieldsNothing | indralink.h:736-750 | Both editions: a string literal never closed by `"` is dropped together with the rest of the input. |
| Lexer.OpenArrayYieldsNothing | indralink.h:716-735 | Both editions: an array literal never closed by `]` is dropped together with the rest of the input. |
| Lexer.OpenParenYieldsNothing | indralink.h:751-761 | Both editions: a `(` comment never closed by `)` is dropped together with the rest of the input. |
| Lexer.OpenLineCommentYieldsNothing | indralink.h:762-773 | Both editions: a `\` comment that no line break ends is dropped together with the rest of the input. |
| Classifier.IsInt | indralink.h:778-792 | `is_int`. No contract of its own; `IsIntMeans` states it against an independent grammar. |
| Classifier.IsFloat | indralink.h:794-812 | `is_float`. No contract of its own; `IsFloatMeans` states it against an independent grammar. |
| Classifier.ArrayLoop | indralink.h:876-932 | The element loop of an array literal. No contract of its own; `LoopUniform`, `LoopMixed` and `LoopFromStart` state what it yields. |
| Classifier.ParseArray | indralink.h:871-932 | An array literal's inner text, split again under the edition and typed element by element. `ParseArrayMeans` states what it yields. |
| Classifier.ParseTok | indralink.h:842-967 | `parse_tok`: the first matching category wins, in the source's order. No contract of its own; `ParseTokQuoted`, `ParseTokBracketed` and the round-trips state what it yields. |
| Classifier.Parse | indralink.h:969-976 | `parse`: one `parse_tok` per token of `split`; `AsWritten` is the source's. No contract of its own; the round-trip lemmas state what reads back. |
| LexicalFacts.DigitFound | indralink.h:778-792 | A character is found in `"0123456789"` exactly when it is a decimal digit. |
| LexicalFacts.IsIntMeans | indralink.h:778-792 | `is_int` holds exactly for a non-empty digit run. Without `nat` it also holds for a `-` followed by such a run. |
| LexicalFacts.IntTextChars | indralink.h:778-792 | An integer text holds only digits and `-`. |
| LexicalFacts.FloatTailSound | indralink.h:799-811 | What `is_float` accepts after the dot is a digit run, optionally followed by `e` or `E` and an integer exponent. |
| LexicalFacts.FloatTailComplete | indralink.h:799-811 | Every such fraction is accepted after the dot. |
| LexicalFacts.ExponentAt | indralink.h:799-811 | A digit run, then `e` or `E`, then an integer exponent, is accepted after the dot wherever the exponent letter stands. |
| LexicalFacts.IsFloatMeans | indralink.h:794-812 | `is_float` holds exactly for an integer text, a dot, and a fraction as above. |
| LexicalFacts.NotFloatExamples | indralink.h:794-812 | `.5`, `1.` and `1.5e` are not floats. |
| LexicalFacts.PlainFloat | indralink.h:794-812 | An integer text, a dot and a digit run always make a float. |
| LexicalFacts.ExponentFloat | indralink.h:794-812 | Adding `e` or `E` and an integer exponent keeps it a float. |
| LexicalFacts.NegativeExponentExample | indralink.h:806-810 | `1.0e-5` is a float, because the exponent may carry a minus sign. |
| LexicalFacts.PlainFloatExample | indralink.h:794-804 | `1.5` is a float: integer text, a dot and a digit run with no exponent. |
| LexicalFacts.NegativeFloatExample | indralink.h:779-804 | `-0.25` is a float, because the part before the dot is checked with `is_int`, which allows a leading minus. |
| LexicalFacts.UpperExponentExample | indralink.h:800-812 | `2.5E3` is a float: when no `e` is found, the search for the exponent letter falls back to `E`. |
| LexicalFacts.IsFloatHead | indralink.h:853-860 | A float text starts with a digit or `-`. It is never an integer text, so `parse_tok` orders the two tests harmlessly. |
| LexicalFacts.IntToStringIsInt | indralink.h:778-792 | Every integer rendered by `to_string` passes `is_int`. |
| LexicalFacts.FloatTextNoWhite | indralink.h:794-812 | A float text holds no white space, so it is one bareword. |
| ScanFacts.BarewordScan | indralink.h:676-715 | A bareword followed by a space is emitted as one token, and scanning resumes in the white-space state. |
| ScanFacts.SplitBareword | indralink.h:661-776 | `split` of a bareword is that word alone, in both editions (by `SplitAgrees`). |
| ScanFacts.SpacedScan | indralink.h:676-715 | Barewords joined by spaces are emitted one by one, in order. |
| ScanFacts.InStringNewline | indralink.h:736-750 | Inside a string literal, the two characters `\n` become one newline. |
| ScanFacts.InStringClose | indralink.h:736-750 | The closing `"` ends the token, which keeps its quote. |
| ScanFacts.StringBodyScan | indralink.h:736-750 | A string body with its newlines escaped and no quote or backslash reads back as the body itself. |
| ArrayFacts.LoopUniform | indralink.h:876-932 | When every non-comment element has the array's kind, the element loop appends each element's value in order. |
| ArrayFacts.LoopMixed | indralink.h:887-901 | When some non-comment element lacks the kind, the loop yields `Bad-array-el:` naming the first such element. |
| ArrayFacts.LoopFromStart | indralink.h:874-932 | With no element, the literal stays the `Parse` error. Otherwise the first element's kind decides: a uniform literal becomes the array of that kind, A literal whose first element has no kind becomes `Bad-array-el:` naming that element. A mixed one becomes `Bad-array-el:` naming the first element of another kind than the first's, or of none. |
| ArrayFacts.ParseArrayMeans | indralink.h:871-932 | Both editions: the same statement, with the same first misfit named in the error, for the elements into which the edition's `split` cuts the text between the brackets. As written, those elements may carry a leading blank and are then bad elements. |
| RoundTrip.ParseTokQuoted | indralink.h:842-870 | A token in double quotes parses to the STRING between them. |
| RoundTrip.ParseTokBracketed | indralink.h:842-873 | A token in brackets parses as an array literal of its inner text. |
| RoundTrip.IntRoundTrip | indralink.h:80-87 | Both editions: parsing the text of an INT gives that INT back. |
| RoundTrip.BoolRoundTrip | indralink.h:80-87 | Both editions: parsing the text of a BOOL gives that BOOL back. |
| RoundTrip.FloatRoundTrip | indralink.h:80-87 | Both editions: parsing the text of a FLOAT whose text is a float literal gives that FLOAT back. |
| RoundTrip.StrRoundTrip | indralink.h:88-92 | Both editions: parsing the text of a STRING without `"` or `\` gives that STRING back, including strings with newlines. |
| RoundTrip.SplitIntArray | indralink.h:93-100 | The text of an INT array is one token for `split`, in both editions. |
| RoundTrip.IntArrayElements | indralink.h:871-932 | Corrected only: the elements of a rendered non-empty INT array parse back to the array. |
| RoundTrip.IntArrayRoundTrip | indralink.h:93-100 | Corrected only: parsing the text of a non-empty INT array gives that array back. |
| RoundTrip.ArrayRenderAsWritten | indralink.h:93-100 | As written, `[ 1 ]` re-splits its inside into the token ` 1`, and that token is a bad array element. |
| RoundTrip.IntArrayRejectedAsWritten | indralink.h:673-681 | As written, the text of every non-empty INT array parses to `Bad-array-el:` naming its first integer with the blank in front, unless that text is a symbol's name. |
| StackOps.Math2 | indralink.h:156-255 | `math_2ops` pushes `Math-<op>-Not-Enough-Operands` onto a stack with fewer than two atoms. Otherwise it replaces the top two atoms by one result and keeps everything below. |
| StackOps.Cmp2 | indralink.h:256-376 | `cmp_2ops` pushes `CMP-Not-Enough-Operands` onto a short stack. Otherwise it replaces the top two atoms by one result; `IntCmp`, `FloatCmp`, `StrCmp`, `BoolCompare` and `CmpWrongType` give that result. |
| StackOps.Bool2 | indralink.h:377-430 | `bool_2ops` pushes `Bool-Not-Enough-Operands` onto a short stack. Otherwise it replaces the top two atoms by one result; `IntLogic`, `BoolLogic` and `LogicWrongType` give that result. |
| StackOps.ApplyBuiltin | indralink.h:478-622 | A built-in stops the model exactly in two cases. One is `drop` or `print` on an empty stack, which is undefined. The other is `load` or `eval` with a STRING on top, which needs files or a nested parse. |
| StackFacts.DupThenDrop | indralink.h:431-443 | `dup` then `drop` restores the stack. |
| StackFacts.SwapTwice | indralink.h:461-477 | `swap` twice restores the stack. |
| StackFacts.DupPairThenDrops | indralink.h:444-460 | `dup2` repeats the top pair, and two drops restore the stack. |
| StackFacts.UnderflowPushesOneError | indralink.h:156-477 | A word short of operands keeps the stack and pushes exactly one error on top. |
| StackFacts.MathErrorExactly | indralink.h:156-255 | Arithmetic yields an error exactly on rejected operands. Those are a non-number, `%` with a float, and division or remainder by zero. |
| StackFacts.IntMath | indralink.h:181-216 | On two INTs, `+`, `-` and `*` push the sum, difference and product, and `/` or `%` by zero pushes `/-by-Zero`. |
| StackFacts.FloatMath | indralink.h:217-250 | On two numbers of which one is a FLOAT, `%` pushes `Unknown math-2ops: %`, `/` by a zero pushes `/-by-Zero`, and otherwise the FLOAT the host computes from the two operands is pushed. |
| StackFacts.MathWrongType | indralink.h:173-179 | An operand that is neither INT nor FLOAT pushes `Math-<op>-Wrong-Type-Operands`. |
| StackFacts.AddThenSub | indralink.h:156-255 | `a b + b -` leaves `a`. |
| StackFacts.DivModRecombine | indralink.h:187-203 | With the results of integer `/` and `%` on the same operands, q*b + r == a. |
| StackFacts.IntCmp | indralink.h:317-337 | On two INTs each of the six comparisons pushes the BOOL of that comparison of the values. |
| StackFacts.FloatCmp | indralink.h:338-367 | On two numbers of which one is a FLOAT, a comparison pushes the BOOL the host answers. |
| StackFacts.StrCmp | indralink.h:288-310 | On two STRINGs, `==` and `!=` test equality, and `<`, `<=`, `>`, `>=` follow `std::string` ordering. |
| StackFacts.CmpWrongType | indralink.h:274-315 | A pair that is not two numbers, two BOOLs or two STRINGs pushes `Math-<op>-Wrong-Type-Operands`. |
| StackFacts.CompareLaws | indralink.h:256-376 | On two INTs or two STRINGs every comparison answers with a BOOL. The negated comparison answers the opposite. The converse comparison with swapped operands answers the same. |
| StackFacts.BoolCompare | indralink.h:256-376 | Two BOOLs compare only with `==` and `!=`, and those answer equality and inequality. |
| StackFacts.StrLessTrichotomy | indralink.h:256-376 | String ordering is total: of two strings one is smaller, or they are equal. |
| StackFacts.StrLessTransitive | indralink.h:256-376 | String ordering is transitive. |
| StackFacts.StrLessAsymmetric | indralink.h:256-376 | String ordering is asymmetric. |
| StackFacts.StrLessIrreflexive | indralink.h:256-376 | String ordering is irreflexive. |
| StackFacts.IntLogic | indralink.h:402-425 | On two INTs, `and` and `or` push the BOOL of the values read as true exactly when non-zero. |
| StackFacts.BoolLogic | indralink.h:402-425 | On two BOOLs, `and` and `or` push their conjunction and disjunction. |
| StackFacts.LogicWrongType | indralink.h:395-401 | An operand that is neither INT nor BOOL pushes `Bool-requires-int-or-bool-Operands`. |
| StackFacts.LogicLaws | indralink.h:377-430 | `and` and `or` do not depend on operand order. They answer exactly when both operands are BOOL or INT. `0 and x` is false for every truth value `x`. |
| Definitions.StoreDef | indralink.h:1007-1024 | `store_def` succeeds exactly for a definition of at least two atoms whose first is an unreserved name not starting with `?` or `!`. It then binds the name to the rest. A definition that is too short gets `Func-Def-Too-Short: <n>`. |
| Definitions.ExtractFrom | indralink.h:1049-1093 | The extraction loop. No contract of its own; the five lemmas below state its outcomes. |
| Definitions.NoDefinitions | indralink.h:1049-1093 | Code without `:` or `;` passes extraction unchanged and defines nothing. |
| Definitions.OneDefinition | indralink.h:1049-1093 | Code holding one good definition loses it from the body, and the function table gains it. |
| Definitions.StrayDefEnd | indralink.h:1055-1061 | A `;` outside a definition is the error `Def-End-Outside-Def`. |
| Definitions.NestedDefinition | indralink.h:1067-1073 | A `:` inside a definition is the error `Nested-Def-Illegal`. |
| Definitions.UnterminatedDefinition | indralink.h:1091-1093 | A `:` never closed is the error `Unterminated-func-def`, and the body keeps only what came before it. |
| Definitions.RejectedDefinition | indralink.h:1074-1083 | A definition `store_def` refuses reports `store_def`'s error. |
| Jumps.ResolveFrom | indralink.h:1095-1226 | The resolution loop, under the `else` rule of the edition: counting as written, innermost `if` corrected. No contract of its own; `JumpsLinked`, `LoneWord` and `IfThenElse` state what it yields. |
| Jumps.Resolve | indralink.h:1095-1226 | The resolution pass from an empty set of open words. `Resolve(AsWritten, …)` is the source's. |
| JumpFacts.JumpsLinked | indralink.h:1095-1226 | Both editions: a program that resolves has the same atoms with only jump addresses changed. Every `loop` and `next` is linked both ways with its `while` or `for`. Every `break` jumps back to a loop head. Every `if` jumps forward to its own `else` or `endif`, and no two `if`s share a target. Every `else` is the target of an `if` before it and jumps forward to an `endif`. Every `endif` ends an `if`, and an `if` inside another ends within the same branch. |
| JumpFacts.LinksFrom | indralink.h:1095-1226 | The invariant of the resolution loop carries to its end. It covers the open stacks (ascending), the links made so far, and the `if` structure before `pc`: closed `if`s are linked, and open ones have no target yet or point at their `else`. |
| JumpFacts.IfsEndif | indralink.h:1144-1159 | `endif` closes the innermost open `if`: it sets that `if`'s jump, or the jump of its `else`, to the `endif`, and the `if` structure invariant is kept. |
| JumpFacts.IfsElse | indralink.h:1133-1143 | An accepted `else` becomes the target of the innermost open `if`, which had none, under either edition's rule, and the invariant is kept. |
| JumpFacts.IfsIf | indralink.h:1123-1132 | `if` opens with jump 0 and keeps the invariant. |
| JumpFacts.FinalLinks | indralink.h:1215-1226 | With no `if` left open at the end, the invariant yields the `if` links of a resolved program: each `else` jumps forward to an `endif`. |
| JumpFacts.StrayElseNotLinked | indralink.h:1133-1159 | An `else` that jumps back, or one no `if` jumps to, breaks the `if` links. |
| JumpFacts.LoneWord | indralink.h:1095-1226 | Both editions: each flow word alone among plain atoms draws its own error, except two. An unclosed `while` resolves without complaint, and `return` needs no partner. |
| JumpFacts.PlainRun | indralink.h:1099-1101 | Resolution passes over atoms that are not flow words. |
| ElseRuleFacts.IfThenElse | indralink.h:1120-1143 | For every program: an `if` followed past plain atoms by an `else`. As written, the `else` is accepted exactly when the `if`s open before were as many as the `else`s on record, and is otherwise refused with `Unexpected 'else' statement!`. Corrected, it is always accepted by the new `if`. |
| ElseRuleFacts.SecondIfElseRejected | indralink.h:1136-1161 | As written, the second of two consecutive `if … else … endif` blocks is refused with `Unexpected 'else' statement!`. |
| ElseRuleFacts.SecondIfElseResolved | indralink.h:1136-1161 | Corrected: both blocks resolve, each `if` to its own `else` and `endif`. |
| ElseRuleFacts.NestedIfElseRejected | indralink.h:1136-1144 | As written, an `if … else … endif` nested inside the first branch of another `if` is refused. |
| ElseRuleFacts.NestedIfElseResolved | indralink.h:1136-1161 | Corrected: the nested `else` belongs to the inner `if`. |
| ElseRuleFacts.ElsesIrrelevant | indralink.h:1136-1161 | The corrected rule does not depend on the record of `else`s met. |
| Engine.ReadSymbol | indralink.h:1454-1502 | Reading a symbol yields an error exactly when it holds something other than a scalar or an INT array. |
| Engine.Step | indralink.h:1240-1556 | One atom of the dispatch switch, under the edition. No contract of its own; the step lemmas and whole-program lemmas below state its effect. |
| Engine.Exec | indralink.h:1228-1569 | The dispatch loop under the cycle cap, running every atom with `Step` of the given edition, calls included. No contract of its own. |
| Engine.Eval | indralink.h:1035-1569 | `eval`: extraction, `Resolve(ed, …)`, then `Exec` with the same edition; `Eval(…, AsWritten, …)` is the source's. No contract of its own; the lemmas below state what it yields. |
| EngineFacts.RunValues | indralink.h:1228-1256 | Both editions: a program of values pushes them in order and succeeds when it has at most 2500 atoms. A longer one pushes the first 2501 and fails, because of the cycle cap. |
| EngineFacts.ValuesCapped | indralink.h:1230-1236 | Both editions: dispatch of a run of values, with the same outcome under the cap. |
| EngineFacts.ValuesRun | indralink.h:1241-1256 | Both editions: each value between two addresses within the remaining budget is pushed in order, and the budget falls by one per value. |
| EngineFacts.EvalPlain | indralink.h:1035-1569 | Both editions: without definitions or flow words, `eval` is the dispatch loop over the code as given. |
| EngineFacts.EvalResolved | indralink.h:1035-1226 | Both editions: without definitions, `eval` is the dispatch loop over the code as the edition's `else` rule resolves it. |
| EngineFacts.EvalExtracted | indralink.h:1035-1226 | Both editions: with good definitions, `eval` runs the body, as the edition resolves it, under the extended function table. |
| EngineFacts.StoreThenRead | indralink.h:1454-1535 | Both editions: `>n n` on a value the edition can store reads back a scalar or INT array unchanged, leaving the stack as it was and binding `n`, and succeeds; other arrays are stored but fail on reading. A value the edition refuses (a BOOL, as written) is popped, nothing is filed, and the run fails. |
| EngineFacts.StoreReadRun | indralink.h:1454-1535 | Both editions: the same statement for the dispatch loop, for a storable value. |
| EngineFacts.StoreRefusedRun | indralink.h:1503-1535 | Both editions: `>n` on a value the edition cannot store pops it, files nothing, and fails. |
| EngineFacts.StoreThenDelete | indralink.h:1503-1545 | Both editions: `>n !n` on a fresh name pops the value and leaves the symbol table as it was; it succeeds exactly when the edition can store the value. |
| EngineFacts.StoreDeleteRun | indralink.h:1503-1545 | Both editions: the same statement for the dispatch loop, for a storable value. |
| EngineFacts.StoreRejected | indralink.h:1503-1533 | Both editions: `>n` fails on a reserved or function name, on an empty stack, on a marked name or on a value the edition refuses. The error is popped at the end, and only a popped value is lost. |
| EngineFacts.StoreRejectedRun | indralink.h:1503-1533 | Both editions: the same statement for the dispatch loop. |
| EngineFacts.DeleteFunction | indralink.h:1445-1502 | `!f` on a function removes it. Corrected, that is all, and the run succeeds. As written, it goes on to read `f` as a symbol: with no symbol `f` it fails, and with one it pushes the symbol's value, or fails when the value cannot be read. |
| EngineFacts.DeleteRun | indralink.h:1445-1502 | The same statement for the dispatch loop, in both editions. |
| EngineFacts.DeleteFuncReadsSymbol | indralink.h:1445-1502 | As written, `!f` deletes the function and then pushes the symbol `f`. Corrected, it only deletes. |
| EngineFacts.DeleteFuncAborts | indralink.h:1445-1502 | As written, `!f` with no symbol `f` deletes the function and then fails with `Undefined-symbol-reference`. |
| EngineFacts.DefineLine | indralink.h:1049-1093 | Both editions: the line `: n def ;` files the definition, runs nothing and succeeds. |
| EngineFacts.DefineThenDelete | indralink.h:1445-1453 | Both editions: the line `: n def ;` and then the line `!n` leave the machine as before; the second line succeeds exactly in the corrected edition. |
| EngineFacts.StoreBoolRejected | indralink.h:1520 | As written, storing a BOOL fails with `Symdef-invalid-type`. |
| EngineFacts.ReadFalseAsTrue | indralink.h:1468-1475 | As written, a symbol holding `false` pushes `true`. Corrected, it pushes `false`. |
| EngineFacts.DefineThenCall | indralink.h:1488-1497 | Both editions: `: n def ; n` defines `n` and calls it: the values of `def` are pushed, `n` is bound, and the run succeeds. |
| EngineFacts.CallValues | indralink.h:1488-1497 | Both editions: a name that is no symbol but a function of values pushes those values. |
| EngineFacts.CallerGoesOn | indralink.h:1425-1434 | Both editions: a caller ignores the outcome of the function it calls. It continues from the callee's machine and pushes its own values. |
| EngineFacts.CallThenValuesRun | indralink.h:1425-1434 | Both editions: the same statement for the dispatch loop. |
| EngineFacts.FailingCallee | indralink.h:1425-1434 | Both editions: `f 7` with `f` defined as `+`, on an empty stack: the call fails, its error is popped, and the caller still succeeds with `7`. |
| EngineFacts.AddOnEmpty | indralink.h:156-165 | Both editions: `+` on an empty stack fails and leaves the stack empty. |
| EngineFacts.MissingFunction | indralink.h:1425-1434 | Both editions: a call of a function deleted since parsing aborts the run. |
| EngineFacts.NestedDefinitionLeft | indralink.h:1067-1073 | Both editions: after a nested `:`, nothing runs, and `Nested-Def-Illegal` is left under the run's failure. |
| EngineFacts.UnterminatedLeft | indralink.h:1091-1093 | Both editions: after an unclosed `:`, nothing runs, and the stack is as before. |
| EngineFacts.UnresolvedLeft | indralink.h:1095-1226 | Both editions: a program whose jumps do not resolve runs nothing, and the stack is as before. |
| FlowFacts.ResolveIfElse | indralink.h:1128-1161 | Both editions: `c if x else y endif` resolves with `if` jumping to `else` and `else` to `endif`. |
| FlowFacts.IfElseSelects | indralink.h:1266-1298 | Both editions: `c if x else y endif` pushes `x` when `c` is true and `y` when it is false. A condition that is neither INT nor BOOL fails. |
| FlowFacts.IfBadCondition | indralink.h:1266-1295 | Both editions: a condition that is not INT or BOOL draws `No-int-or-bool-for-if`. |
| FlowFacts.ResolveUnpack | indralink.h:1102-1127 | Both editions: `xs for swap next` resolves with `for` and `next` linked both ways. |
| FlowFacts.UnpackFrom | indralink.h:1332-1413 | Both editions: each pass of `for` takes the first element and leaves the rest below it. |
| FlowFacts.ForUnpacks | indralink.h:1332-1413 | Both editions: `xs for swap next` pushes the elements of an INT array one by one, in order, within the cycle cap. |
| FlowFacts.ResolveCountdown | indralink.h:1162-1189 | Both editions: `n dup while 1 - dup loop` resolves with `while` and `loop` linked both ways. |
| FlowFacts.CountdownFrom | indralink.h:1299-1331 | Both editions: each pass of the countdown costs five cycles, and it ends at 0 exactly when its budget allows. |
| FlowFacts.Countdown | indralink.h:1228-1331 | Both editions: `n dup while 1 - dup loop` ends with 0 on top and succeeds exactly when 0 <= n and 5n < 2498. Otherwise the cycle cap stops it. |
| FlowFacts.ReturnEnds | indralink.h:1421-1423 | Both editions: `return` ends the program: the values before it are pushed, and nothing after it runs. |

## Left out

- `indralink.cpp` is not part of this model. It holds the console loop, which
  reads lines and prints the stack.
- Console output is left out. `print`, `printstack`, `?name` and the messages
  at the end of an aborted run only print, so they leave the stack as the
  model says.
- Files and the nested parse are left out. `save` and `load` write and read
  files, and `eval` parses and evaluates a string. The model checks their
  arguments as the source does. `load` and `eval` then stop with
  `NotModelled`. A good `save` pops its file name and goes on, and the file
  it writes (indralink.h:549-563) is not modelled.
- Floating point is left out. Float arithmetic, float comparison and the
  text `std::to_string` gives a double come from the host parameter
  `FloatOps`. `atof` is not modelled: a FLOAT keeps its literal text.
- Integer width is left out. INT is unbounded, so 32-bit overflow of `+ - *`,
  `atoi` of out-of-range texts and `INT_MIN / -1` are not modelled.
- Atoms.Render: an INT atom holds only its value and renders as
  `std::to_string` of it. The source returns the text the literal was
  parsed from (indralink.h:853-856), so `007` and `-0` render as `007` and
  `-0` there and as `7` and `0` here, also inside a `Bad-array-el:` message
  that quotes a symbol's text (indralink.h:889-893). A FLOAT array renders
  its elements' literal texts, where the source writes `std::to_string` of
  each double.
- Engine.ReadSymbol: reading a FLOAT symbol keeps its literal text. The
  source rewrites the text with `std::to_string` of the double
  (indralink.h:1466), which needs the float numerics left to the host.
- Engine.Exec: the depth of nested calls is bounded by `fuel`. A program
  that nests deeper stops with `OutOfFuel`, where the source would go on
  until its stack overflows.
- An unclosed `while` resolves without error, because the source checks
  only `for` and `if` at the end of resolution. When it runs into its
  condition's false branch, it jumps through an address that was never set.
  That is undefined, so the model stops.
- `is_float` accepts a minus sign in the exponent (`1.0e-5`), because it
  tests the exponent with `is_int` without `nat`. The model follows the
  code.
- Integer literals are read by `atoi` only on texts that pass `is_int`, so
  `Numbers.Atoi` is defined only for an optional `-` and digits.
- IntArrayRoundTrip: stated for the corrected tokenizer only, since as
  written the round trip fails (Findings, first row;
  `IntArrayRejectedAsWritten`). It is also stated only
  for INT arrays, and only for non-empty ones. An empty array renders as
  `[ ]`, which parses back to the `Parse` error. Float, bool and string
  arrays are not covered.
- IntArrayElements: stated for the corrected tokenizer only. As written,
  the first element keeps the leading blank of `[ 1 …` and is a bad element
  (`ArrayRenderAsWritten`, and for every non-empty INT array
  `IntArrayRejectedAsWritten`).
- RoundTrip.StrRoundTrip: stated only for strings without `"` and `\`.
  `str()` does not escape those, so such strings do not read back.
- RoundTrip.FloatRoundTrip: stated only for FLOAT atoms whose text is a
  float literal, which is what `parse_tok` makes.

## Findings

| source | as written | input that shows it | evidently intended | confidence | as-written member | corrected member |
|---|---|---|---|---|---|---|
| indralink.h:673-681 | `split` starts in `START`, which takes the first character as the start of a token even when it is white space. | `[ 1 ]`: its inside ` 1 ` splits to ` 1`, which is not an integer, so the array literal that `str()` writes for `[1]` reads back as `Bad-array-el:  1`. | Start in `WHITE_SPACE`, so that leading white space is skipped like any other. | high; not executed | Lexer.SplitAsWritten, RoundTrip.ArrayRenderAsWritten, RoundTrip.IntArrayRejectedAsWritten | Lexer.Split, RoundTrip.IntArrayRoundTrip |
| indralink.h:1136-1144 | `else` is accepted only when exactly one more `if` is open than `else`s were recorded, and `else_level` is never popped at `endif` (1149-1161). | `1 if 2 else 3 endif 1 if 4 else 5 endif`: the second `else` is refused. | Each `if` may have one `else`. | high; not executed | ElseRuleFacts.IfThenElse, ElseRuleFacts.SecondIfElseRejected | ElseRuleFacts.SecondIfElseResolved |
| indralink.h:1136-1144 | The same counting rule refuses an `else` when an outer `if` is still open. | `1 if 1 if 2 else 3 endif endif` | The `else` belongs to the innermost open `if`. | high; not executed | ElseRuleFacts.IfThenElse, ElseRuleFacts.NestedIfElseRejected | ElseRuleFacts.NestedIfElseResolved |
| indralink.h:1445-1453 | The `DELETE_FUNC` case has no `break`. It falls into the `SYMBOL` case, which reads the deleted name as a symbol. | The line `: f 1 ;`, then the line `!f` (which parses as `DELETE_FUNC` because `f` is by then a function): with no symbol `f` it aborts with `Undefined-symbol-reference: <f>`. With a symbol `f` holding 42, it pushes 42. | Delete the function and go on. | high; not executed | EngineFacts.DeleteFuncReadsSymbol, EngineFacts.DeleteFuncAborts | EngineFacts.DeleteFunction, EngineFacts.DefineThenDelete |
| indralink.h:1520 | The type test reads `res.t && BOOL` where `res.t != BOOL` is meant. `res.t && BOOL` is true for every non-zero type, so that conjunct blocks nothing, and BOOL alone newly reaches the error. | `true >x` fails with `Symdef-invalid-type`. | Store a BOOL like any other scalar. | high; not executed | EngineFacts.StoreBoolRejected | EngineFacts.StoreThenRead |
| indralink.h:1468-1475 | Reading a BOOL symbol assigns `res.vb = "false"` in the false branch. That makes the flag true, since a string literal converts to `true`. | A symbol holding `false` pushes `true`. | Leave the flag false and set the text to `false`. | medium; not executed; masked by the BOOL store check at line 1520, since `>name` is the only writer of symbols | EngineFacts.ReadFalseAsTrue | EngineFacts.StoreThenRead |
