/** The built-in words: two-operand arithmetic, comparison and logic, the
    stack words `dup`, `dup2`, `swap`, `drop`, `ss`, `cs`, and the argument
    checks of the console and file words. A built-in that meets an error
    pushes an ERROR atom and returns; the interpreter then aborts. */
module StackOps {
  import opened Text
  import opened Numbers
  import opened Atoms

  /** An operand of floating-point arithmetic: an integer converted to double,
      or a float given by its literal text. */
  datatype Num = NInt(i: int) | NFloat(text: string)

  /** The floating-point unit of the host: the text of the result of `+ - * /`
      on two operands, the six comparisons, and the test of a float operand
      against 0.0. The model does no floating-point arithmetic of its own. */
  datatype FloatOps = FloatOps(
    arith: (MathOp, Num, Num) -> string,
    compare: (CmpOp, Num, Num) -> bool,
    isZero: string -> bool)

  /** Why an evaluation stops without an answer: behaviour the source leaves
      undefined (popping an empty vector, jumping through an address that was
      never set), a word whose effect lies outside the model (reading a file,
      evaluating a string), or the call-depth bound of the model. */
  datatype Halt = UndefinedBehaviour(what: string) | NotModelled(what: string) | OutOfFuel

  /** The effect of a built-in on the stack. */
  datatype Effect = Continue(stack: seq<Atom>) | Stop(why: Halt)

  function MathSymbol(m: MathOp): string {
    match m
    case Add => "+"
    case Sub => "-"
    case Mul => "*"
    case Div => "/"
    case Mod => "%"
  }

  function CmpSymbol(c: CmpOp): string {
    match c
    case Eq => "=="
    case Ne => "!="
    case Ge => ">="
    case Le => "<="
    case Lt => "<"
    case Gt => ">"
  }

  /** The numeric view of an atom: INT and FLOAT are numbers, nothing else is. */
  function AsNum(a: Atom): Option<Num> {
    match a
    case Int(v) => Some(NInt(v))
    case Float(t) => Some(NFloat(t))
    case _ => None
  }

  /** The divisor test of the floating-point path: `o2 == 0.0`. */
  function IsZero(n: Num, fl: FloatOps): bool {
    match n
    case NInt(i) => i == 0
    case NFloat(t) => fl.isZero(t)
  }

  /** The atom `math_2ops` pushes for operands `op1` (below) and `op2` (top).
      Two integers give an integer, with C++ truncating `/` and `%`; any float
      operand sends both through the floating-point path, which has no `%`. */
  function MathResult(m: MathOp, op1: Atom, op2: Atom, fl: FloatOps): Atom {
    match (AsNum(op1), AsNum(op2))
    case (Some(NInt(a)), Some(NInt(b))) =>
      (match m
       case Add => Int(a + b)
       case Sub => Int(a - b)
       case Mul => Int(a * b)
       case Div => if b == 0 then Error("/-by-Zero") else Int(TruncDiv(a, b))
       case Mod => if b == 0 then Error("/-by-Zero") else Int(TruncMod(a, b)))
    case (Some(n1), Some(n2)) =>
      if m == Mod then Error("Unknown math-2ops: %")
      else if m == Div && IsZero(n2, fl) then Error("/-by-Zero")
      else Float(fl.arith(m, n1, n2))
    case _ => Error("Math-" + MathSymbol(m) + "-Wrong-Type-Operands")
  }

  /** `math_2ops`: with fewer than two atoms an error is pushed; otherwise the
      top two are replaced by their result, which may be an error. */
  function Math2(st: seq<Atom>, m: MathOp, fl: FloatOps): (r: seq<Atom>)
    ensures |st| < 2 ==> r == st + [Error("Math-" + MathSymbol(m) + "-Not-Enough-Operands")]
    ensures |st| >= 2 ==> |r| == |st| - 1 && r[..|st| - 2] == st[..|st| - 2]
  {
    if |st| < 2 then st + [Error("Math-" + MathSymbol(m) + "-Not-Enough-Operands")]
    else st[..|st| - 2] + [MathResult(m, st[|st| - 2], st[|st| - 1], fl)]
  }

  /** `std::string` ordering: lexicographic on character codes, a proper
      prefix first. */
  predicate StrLess(x: string, y: string)
    decreases |x|
  {
    if |y| == 0 then false
    else if |x| == 0 then true
    else if x[0] != y[0] then x[0] < y[0]
    else StrLess(x[1..], y[1..])
  }

  function IntCompare(c: CmpOp, a: int, b: int): bool {
    match c
    case Eq => a == b
    case Ne => a != b
    case Ge => a >= b
    case Le => a <= b
    case Lt => a < b
    case Gt => a > b
  }

  function StrCompare(c: CmpOp, x: string, y: string): bool {
    match c
    case Eq => x == y
    case Ne => x != y
    case Ge => !StrLess(x, y)
    case Le => !StrLess(y, x)
    case Lt => StrLess(x, y)
    case Gt => StrLess(y, x)
  }

  /** The atom `cmp_2ops` pushes. Numbers compare as integers when both are
      integers and through the floating-point unit otherwise; two booleans
      allow only `==` and `!=`; two strings allow all six; any other pair is
      rejected with the arithmetic error text. */
  function CmpResult(c: CmpOp, op1: Atom, op2: Atom, fl: FloatOps): Atom {
    match (AsNum(op1), AsNum(op2))
    case (Some(NInt(a)), Some(NInt(b))) => Bool(IntCompare(c, a, b))
    case (Some(n1), Some(n2)) => Bool(fl.compare(c, n1, n2))
    case _ =>
      if op1.Bool? && op2.Bool? then
        (if c == Eq then Bool(op1.b == op2.b)
         else if c == Ne then Bool(op1.b != op2.b)
         else Error("BOOL-Cmp-" + CmpSymbol(c) + "-Wrong-Type-Operands"))
      else if op1.Str? && op2.Str? then Bool(StrCompare(c, op1.s, op2.s))
      else Error("Math-" + CmpSymbol(c) + "-Wrong-Type-Operands")
  }

  /** `cmp_2ops`, with the same stack discipline as `math_2ops`. */
  function Cmp2(st: seq<Atom>, c: CmpOp, fl: FloatOps): (r: seq<Atom>)
    ensures |st| < 2 ==> r == st + [Error("CMP-Not-Enough-Operands")]
    ensures |st| >= 2 ==> |r| == |st| - 1 && r[..|st| - 2] == st[..|st| - 2]
  {
    if |st| < 2 then st + [Error("CMP-Not-Enough-Operands")]
    else st[..|st| - 2] + [CmpResult(c, st[|st| - 2], st[|st| - 1], fl)]
  }

  /** The truth value of a logic operand: a boolean, or an integer that is
      true when non-zero. */
  function Truth(a: Atom): Option<bool> {
    match a
    case Bool(b) => Some(b)
    case Int(v) => Some(v != 0)
    case _ => None
  }

  function LogicResult(l: LogicOp, op1: Atom, op2: Atom): Atom {
    match (Truth(op1), Truth(op2))
    case (Some(b1), Some(b2)) => Bool(if l == And then b1 && b2 else b1 || b2)
    case _ => Error("Bool-requires-int-or-bool-Operands")
  }

  /** `bool_2ops`, with the same stack discipline as `math_2ops`. */
  function Bool2(st: seq<Atom>, l: LogicOp): (r: seq<Atom>)
    ensures |st| < 2 ==> r == st + [Error("Bool-Not-Enough-Operands")]
    ensures |st| >= 2 ==> |r| == |st| - 1 && r[..|st| - 2] == st[..|st| - 2]
  {
    if |st| < 2 then st + [Error("Bool-Not-Enough-Operands")]
    else st[..|st| - 2] + [LogicResult(l, st[|st| - 2], st[|st| - 1])]
  }

  function DupTop(st: seq<Atom>): seq<Atom> {
    if |st| < 1 then st + [Error("Stack-Underflow dup")]
    else st + [st[|st| - 1]]
  }

  function DupPair(st: seq<Atom>): seq<Atom> {
    if |st| < 2 then st + [Error("Stack-Underflow dup2")]
    else st + [st[|st| - 2], st[|st| - 1]]
  }

  function SwapTop(st: seq<Atom>): seq<Atom> {
    if |st| < 2 then st + [Error("Stack-Underflow swap")]
    else st[..|st| - 2] + [st[|st| - 1], st[|st| - 2]]
  }

  /** `drop` and `print` pop without checking; on an empty stack that is
      undefined behaviour. */
  function PopTop(st: seq<Atom>, word: string): Effect {
    if |st| == 0 then Stop(UndefinedBehaviour(word + " on an empty stack"))
    else Continue(st[..|st| - 1])
  }

  /** The argument check shared by `save`, `load` and `eval`: a STRING on top,
      which is popped whether or not it is one. */
  function FileArgument(st: seq<Atom>, underflow: string, wrongType: string): Effect {
    if |st| < 1 then Continue(st + [Error(underflow)])
    else if !st[|st| - 1].Str? then Continue(st[..|st| - 1] + [Error(wrongType)])
    else Continue(st[..|st| - 1])
  }

  /** A built-in applied to the stack. The console words only print, so their
      effect is on the stack alone; `save` writes a file the model does not
      keep; `load` and `eval` stop the model once their argument is accepted. */
  function ApplyBuiltin(op: Op, st: seq<Atom>, fl: FloatOps): (r: Effect)
    ensures r.Stop? <==>
      || ((op == Drop || op == Print) && |st| == 0)
      || ((op == Load || op == EvalText) && |st| > 0 && st[|st| - 1].Str?)
  {
    match op
    case Math(m) => Continue(Math2(st, m, fl))
    case Compare(c) => Continue(Cmp2(st, c, fl))
    case Logic(l) => Continue(Bool2(st, l))
    case StackSize => Continue(st + [Int(|st|)])
    case ClearStack => Continue([])
    case Dup => Continue(DupTop(st))
    case Drop => PopTop(st, "drop")
    case Dup2 => Continue(DupPair(st))
    case Swap => Continue(SwapTop(st))
    case Print => PopTop(st, "print")
    case PrintStack => Continue(st)
    case ListVars => Continue(st)
    case ListFuncs => Continue(st)
    case Save => FileArgument(st, "Stack-Underflow-no-filename-on-save", "filename-must-be-string-on-save")
    case Load =>
      var e := FileArgument(st, "Stack-Underflow-no-filename-on-load", "filename-must-be-string-on-load");
      if |st| > 0 && st[|st| - 1].Str? then Stop(NotModelled("load")) else e
    case EvalText =>
      var e := FileArgument(st, "Stack-Underflow-no-filename-on-dyn-eval", "Dyn-eval-requires-string-argument");
      if |st| > 0 && st[|st| - 1].Str? then Stop(NotModelled("eval")) else e
  }
}
