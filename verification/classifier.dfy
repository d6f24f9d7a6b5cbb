/** The token classifier: the lexical predicates `is_int`, `is_float`,
    `is_bool`, `is_string`, `is_array`, `is_comment`, the token-to-atom mapping
    `parse_tok` with its array-literal typing, and `parse`. Classification reads
    the current function and symbol tables. */
module Classifier {
  import opened Text
  import opened Numbers
  import opened Atoms
  import opened Lexer

  const DecimalDigits: string := "0123456789"

  /** `is_int(token, nat)`: after dropping one leading `-` (only when `nat` is
      false), the text is non-empty and each of its characters is found among
      the ten decimal digits (`DigitFound` shows that this is `IsDigit`). */
  predicate IsInt(token: string, natOnly: bool) {
    var t := if !natOnly && |token| > 0 && token[0] == '-' then token[1..] else token;
    |t| > 0 && AllDigits(t)
  }

  /** `is_float`: split at the first `.`; the part before must pass `is_int`
      and the part after must pass `IsFloatTail`. */
  predicate IsFloat(token: string) {
    var pos := FindChar(token, '.');
    pos >= 0 && IsInt(token[..pos], false) && IsFloatTail(token[pos + 1..])
  }

  /** The part of a float after its dot: either a digit run (`is_int` with
      `nat`), or, split at the first `e` (or, when there is no `e`, the first
      `E`), a digit run and an `is_int` exponent. */
  predicate IsFloatTail(s2: string) {
    var e := FindChar(s2, 'e');
    var p := if e < 0 then FindChar(s2, 'E') else e;
    if p < 0 then IsInt(s2, true)
    else IsInt(s2[..p], true) && IsInt(s2[p + 1..], false)
  }

  predicate IsComment(t: string) {
    |t| > 0 && (t[0] == '\\' || t[0] == '(')
  }

  predicate IsBool(t: string) {
    t == "false" || t == "true"
  }

  predicate IsString(t: string) {
    |t| > 1 && t[0] == '"' && t[|t| - 1] == '"'
  }

  predicate IsArrayText(t: string) {
    |t| > 1 && t[0] == '[' && t[|t| - 1] == ']'
  }

  /** Element kinds of an array literal. */
  datatype Kind = KInt | KFloat | KBool | KStr

  /** The kind an array element has, and the text it contributes. A token that
      is no literal but names a symbol holding a scalar contributes that
      symbol's kind and its rendering. */
  function ElementKind(el: string, symbols: map<string, Atom>): (Option<Kind>, string) {
    if IsInt(el, false) then (Some(KInt), el)
    else if IsFloat(el) then (Some(KFloat), el)
    else if IsBool(el) then (Some(KBool), el)
    else if IsString(el) then (Some(KStr), el)
    else if el in symbols && IsScalar(symbols[el]) then
      var sm := symbols[el];
      (Some(match sm case Int(_) => KInt case Float(_) => KFloat case Bool(_) => KBool case _ => KStr), Render(sm))
    else (None, el)
  }

  /** A string element without its quotes; the source's fallback text for an
      element too short to have two. */
  function Unquote(el: string): string {
    if |el| > 1 then el[1..|el| - 1] else "INV_STR"
  }

  /** The scalar an element text of a given kind denotes. */
  function ElementAtom(k: Kind, el: string): Atom {
    match k
    case KInt => Int(Atoi(el))
    case KFloat => Float(el)
    case KBool => Bool(el == "true")
    case KStr => Str(Unquote(el))
  }

  /** The array atom with one more element of kind `k`; `m` is the array built
      so far, or the initial `Error "Parse"`. */
  function AddElement(m: Atom, k: Kind, el: string): Atom {
    match ElementAtom(k, el)
    case Int(v) => IntArray((if m.IntArray? then m.ints else []) + [v])
    case Float(f) => FloatArray((if m.FloatArray? then m.floats else []) + [f])
    case Bool(b) => BoolArray((if m.BoolArray? then m.bools else []) + [b])
    case Str(s) => StrArray((if m.StrArray? then m.strs else []) + [s])
    case _ => m
  }

  /** What the element loop sees of one element text: a comment, which it
      skips, or an element with its kind (if any) and the text it
      contributes. */
  datatype ElementInfo = Skip | Item(kind: Option<Kind>, text: string)

  function Classify(el: string, symbols: map<string, Atom>): ElementInfo {
    if IsComment(el) then Skip
    else
      var (k, t) := ElementKind(el, symbols);
      Item(k, t)
  }

  /** The element loop of `parse_tok` for an array literal: comments are
      skipped, the first element fixes the kind, and an element without a kind
      or of another kind makes the whole literal a `Bad-array-el` error. */
  function ArrayLoop(items: seq<ElementInfo>, t: Option<Kind>, m: Atom): Atom
    decreases |items|
  {
    if |items| == 0 then m
    else if items[0].Skip? then ArrayLoop(items[1..], t, m)
    else
      var ti := items[0].kind;
      var el := items[0].text;
      var t' := if t.None? && ti.Some? then ti else t;
      if t' != ti || t'.None? then Error("Bad-array-el: " + el)
      else ArrayLoop(items[1..], t', AddElement(m, t'.value, el))
  }

  /** `split` as the edition reads it: as written, a leading blank opens a
      token. */
  function Tokens(input: string, ed: Edition): seq<string> {
    match ed
    case AsWritten => SplitAsWritten(input)
    case Corrected => Split(input)
  }

  /** An array literal: its inner text is split again and typed element by
      element. With no element at all it stays `Error "Parse"`. */
  function ParseArray(inner: string, symbols: map<string, Atom>, ed: Edition): Atom {
    ArrayLoop(Items(inner, symbols, ed), None, Error("Parse"))
  }

  /** The loop's view of the elements of an array literal. */
  function Items(inner: string, symbols: map<string, Atom>, ed: Edition): seq<ElementInfo> {
    var els := Tokens(inner, ed);
    seq(|els|, i requires 0 <= i < |els| => Classify(els[i], symbols))
  }

  /** `parse_tok`: the first matching category wins, in this order: comment,
      definition delimiter, integer, float, boolean, string, array,
      flow-control word, built-in, function, `?function`, `!function`,
      `>name`, `!name`, and otherwise a symbol reference. */
  function ParseTok(t: string, symbols: map<string, Atom>, funcs: map<string, seq<Atom>>, ed: Edition): Atom {
    if IsComment(t) then Comment(t)
    else if IsDefWord(t) then (if t == ":" then DefStart else DefEnd)
    else if IsInt(t, false) then Int(Atoi(t))
    else if IsFloat(t) then Float(t)
    else if IsBool(t) then Bool(t != "false")
    else if IsString(t) then Str(t[1..|t| - 1])
    else if IsArrayText(t) then ParseArray(t[1..|t| - 1], symbols, ed)
    else if FlowWordOf(t).Some? then Flow(FlowWordOf(t).value, None)
    else if BuiltinOp(t).Some? then Builtin(BuiltinOp(t).value, t)
    else if t in funcs then Func(t)
    else if |t| > 1 && t[0] == '?' && t[1..] in funcs then ShowFunc(t[1..])
    else if |t| > 1 && t[0] == '!' && t[1..] in funcs then DeleteFunc(t[1..])
    else if |t| > 1 && t[0] == '>' then StoreSymbol(t[1..])
    else if |t| > 1 && t[0] == '!' then DeleteSymbol(t[1..])
    else Symbol(t)
  }

  /** `parse`: one atom per token, in order. `Parse(input, symbols, funcs,
      AsWritten)` is the source's. */
  function Parse(input: string, symbols: map<string, Atom>, funcs: map<string, seq<Atom>>, ed: Edition): seq<Atom> {
    var toks := Tokens(input, ed);
    seq(|toks|, i requires 0 <= i < |toks| => ParseTok(toks[i], symbols, funcs, ed))
  }
}
