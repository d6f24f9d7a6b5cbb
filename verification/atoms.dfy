/** The value model: the tagged atom every literal, reference, instruction and
    error is made of, the fixed tables of built-in and flow-control words, the
    interpreter's state, and the rendering `IlAtom::str`.

    The source keeps every payload field in one class; here each tag carries
    exactly its own payload. A FLOAT keeps its literal text as an opaque
    payload: the model does no floating-point arithmetic of its own. */
module Atoms {
  import opened Text
  import opened Numbers

  datatype Option<T> = None | Some(value: T)

  /** Which reading of the source is meant: the program as written, or as
      evidently intended where it slips (each slip is listed under Findings).
      As written, `split` takes a leading blank as the start of a token, an
      `else` is accepted by counting open `if`s against recorded `else`s,
      `!name` on a function goes on to read `name` as a symbol, storing a
      BOOL is rejected, and a symbol holding `false` reads back as `true`.
      The corrected reading differs in exactly these five places. */
  datatype Edition = AsWritten | Corrected

  /** The nine flow-control keywords. */
  datatype FlowWord = For | Next | If | Else | Endif | While | Loop | Break | Return

  datatype MathOp = Add | Sub | Mul | Div | Mod
  datatype CmpOp = Eq | Ne | Ge | Le | Lt | Gt
  datatype LogicOp = And | Or

  /** The operations the built-in table binds names to, in place of the
      source's closures. */
  datatype Op =
    | Math(m: MathOp)
    | Compare(c: CmpOp)
    | Logic(l: LogicOp)
    | StackSize
    | ClearStack
    | Dup
    | Drop
    | Dup2
    | Swap
    | Print
    | PrintStack
    | ListVars
    | ListFuncs
    | Save
    | Load
    | EvalText

  datatype Atom =
    | Int(v: int)
    | Float(text: string)
    | Bool(b: bool)
    | Str(s: string)
    | IntArray(ints: seq<int>)
    | FloatArray(floats: seq<string>)
    | BoolArray(bools: seq<bool>)
    | StrArray(strs: seq<string>)
    | Symbol(name: string)
    | StoreSymbol(name: string)
    | DeleteSymbol(name: string)
    | Func(name: string)
    | ShowFunc(name: string)
    | DeleteFunc(name: string)
    | Builtin(op: Op, word: string)
    | Flow(kw: FlowWord, jump: Option<nat>)
    | DefStart
    | DefEnd
    | Comment(text: string)
    | Error(msg: string)

  /** Interpreter state: the value stack (top at the end), the single global
      symbol table and the user-function table. */
  datatype Machine = Machine(stack: seq<Atom>, symbols: map<string, Atom>, funcs: map<string, seq<Atom>>)

  /** The built-in table, fixed when the interpreter is constructed: the
      operation a word names, if any. */
  function BuiltinOp(w: string): Option<Op> {
    match w
    case "+" => Some(Math(Add))
    case "-" => Some(Math(Sub))
    case "*" => Some(Math(Mul))
    case "/" => Some(Math(Div))
    case "%" => Some(Math(Mod))
    case "==" => Some(Compare(Eq))
    case "!=" => Some(Compare(Ne))
    case ">=" => Some(Compare(Ge))
    case "<=" => Some(Compare(Le))
    case "<" => Some(Compare(Lt))
    case ">" => Some(Compare(Gt))
    case "and" => Some(Logic(And))
    case "or" => Some(Logic(Or))
    case "ss" => Some(StackSize)
    case "cs" => Some(ClearStack)
    case "dup" => Some(Dup)
    case "drop" => Some(Drop)
    case "dup2" => Some(Dup2)
    case "swap" => Some(Swap)
    case "." => Some(Print)
    case "print" => Some(Print)
    case "printstack" => Some(PrintStack)
    case "listvars" => Some(ListVars)
    case "listfuncs" => Some(ListFuncs)
    case "save" => Some(Save)
    case "load" => Some(Load)
    case "eval" => Some(EvalText)
    case _ => None
  }

  /** The flow-control word a word names, if any. */
  function FlowWordOf(w: string): Option<FlowWord> {
    match w
    case "for" => Some(For)
    case "next" => Some(Next)
    case "if" => Some(If)
    case "else" => Some(Else)
    case "endif" => Some(Endif)
    case "while" => Some(While)
    case "loop" => Some(Loop)
    case "break" => Some(Break)
    case "return" => Some(Return)
    case _ => None
  }

  function FlowText(w: FlowWord): string {
    match w
    case For => "for"
    case Next => "next"
    case If => "if"
    case Else => "else"
    case Endif => "endif"
    case While => "while"
    case Loop => "loop"
    case Break => "break"
    case Return => "return"
  }

  predicate IsDefWord(t: string) {
    t == ":" || t == ";"
  }

  /** `is_reserved`: built-in names, flow-control words and the definition
      delimiters cannot name a function or a symbol. */
  predicate IsReserved(name: string) {
    BuiltinOp(name).Some? || FlowWordOf(name).Some? || IsDefWord(name)
  }

  predicate IsScalar(a: Atom) {
    a.Int? || a.Float? || a.Bool? || a.Str?
  }

  predicate IsArray(a: Atom) {
    a.IntArray? || a.FloatArray? || a.BoolArray? || a.StrArray?
  }

  function BoolText(b: bool): string {
    if b then "true" else "false"
  }

  /** Text of a STRING atom as `str()` writes it: in quotes, with each embedded
      newline written as the two characters `\n`. */
  function QuoteString(s: string): string {
    ReplaceAll("\"" + s + "\"", "\n", "\\n")
  }

  function IntItems(xs: seq<int>): string {
    if |xs| == 0 then "" else IntToString(xs[0]) + " " + IntItems(xs[1..])
  }

  function TextItems(ts: seq<string>): string {
    if |ts| == 0 then "" else ts[0] + " " + TextItems(ts[1..])
  }

  function BoolItems(bs: seq<bool>): string {
    if |bs| == 0 then "" else BoolText(bs[0]) + " " + BoolItems(bs[1..])
  }

  /** Array elements of a STRING array are quoted but, unlike a STRING atom,
      not escaped. */
  function QuotedItems(ss: seq<string>): string {
    if |ss| == 0 then "" else "\"" + ss[0] + "\"" + " " + QuotedItems(ss[1..])
  }

  /** `IlAtom::str`, the text of an atom. An INT is written from its value. */
  function Render(a: Atom): string {
    match a
    case Int(v) => IntToString(v)
    case Float(t) => t
    case Bool(b) => BoolText(b)
    case Str(s) => QuoteString(s)
    case IntArray(xs) => "[ " + IntItems(xs) + "]"
    case FloatArray(fs) => "[ " + TextItems(fs) + "]"
    case BoolArray(bs) => "[ " + BoolItems(bs) + "]"
    case StrArray(ss) => "[ " + QuotedItems(ss) + "]"
    case Symbol(n) => n
    case StoreSymbol(n) => ">" + n
    case DeleteSymbol(n) => "!" + n
    case Func(n) => n
    case ShowFunc(n) => "?" + n
    case DeleteFunc(n) => "!" + n
    case Builtin(_, w) => w
    case Flow(w, _) => FlowText(w)
    case DefStart => ":"
    case DefEnd => ";"
    case Comment(t) => t
    case Error(msg) => "\n [Error: " + msg + "] "
  }

  /** Rendering a STRING escapes every newline, and strings without newlines
      are only wrapped in quotes. */
  lemma {:induction false} QuoteStringShape(s: string)
    ensures '\n' !in QuoteString(s)
    ensures '\n' !in s ==> QuoteString(s) == "\"" + s + "\""
  {
  }
}
