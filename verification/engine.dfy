/** `eval`: definitions are extracted, jumps resolved, and the program run
    atom by atom under a cap of 2500 atoms per call. An atom that fails pushes
    an ERROR (most do) and stops the run; when a run stops, an ERROR on top
    of the stack is popped (the source prints it). A user function runs as a
    nested `eval` whose outcome the caller ignores. */
module Engine {
  import opened Atoms
  import opened StackOps
  import opened Definitions
  import opened Jumps

  /** The end of an evaluation: the machine and whether it ran to the end
      without aborting (`eval`'s result), or a stop outside the model. */
  datatype Outcome = Done(m: Machine, ok: bool) | Stopped(why: Halt)

  /** The effect of one atom: the machine, the next address, the loop kind
      last entered at run time and whether the run aborts; or a call of a
      user function; or a stop outside the model. */
  datatype StepOut = Go(m: Machine, pc: nat, last: LoopKind, abort: bool) | Call(name: string) | Stuck(why: Halt)

  /** The number of atoms one `eval` runs before it aborts: the atom that
      pushes the count past this bound still runs. */
  const CycleCap: nat := 2500

  function Push(m: Machine, a: Atom): Machine {
    m.(stack := m.stack + [a])
  }

  function Top(st: seq<Atom>): Atom
    requires |st| > 0
  {
    st[|st| - 1]
  }

  function Below(st: seq<Atom>): seq<Atom>
    requires |st| > 0
  {
    st[..|st| - 1]
  }

  /** An atom whose own error ends the run. */
  function Fail(m: Machine, pc: nat, last: LoopKind, msg: string): StepOut {
    Go(Push(m, Error(msg)), pc + 1, last, true)
  }

  predicate TopIsError(st: seq<Atom>) {
    |st| > 0 && Top(st).Error?
  }

  /** The end of an aborted run: an ERROR on top is taken off (and shown). */
  function Finish(m: Machine): Outcome {
    Done(m.(stack := if TopIsError(m.stack) then Below(m.stack) else m.stack), false)
  }

  /** The jump target of a flow word; reading one never set is undefined. */
  function Jump(j: Option<nat>, word: string, target: nat -> nat, m: Machine, last: LoopKind): StepOut {
    match j
    case Some(a) => Go(m, target(a), last, false)
    case None => Stuck(UndefinedBehaviour("jump through the unset address of '" + word + "'"))
  }

  /** `if` and `while`: pop a BOOL or INT; when false, continue after the
      address the word jumps to. `while` records itself as the last loop once
      the stack is known to be non-empty. */
  function Condition(word: string, j: Option<nat>, pc: nat, last: LoopKind, m: Machine): StepOut {
    var st := m.stack;
    var cap := if word == "if" then "if" else "while";
    if |st| == 0 then Fail(m, pc, last, "Stack-underflow-on-" + cap)
    else
      var last' := if word == "while" then WhileLoop else last;
      var m' := m.(stack := Below(st));
      match Truth(Top(st))
      case None => Fail(m', pc, last', "No-int-or-bool-for-" + cap)
      case Some(true) => Go(m', pc + 1, last', false)
      case Some(false) => Jump(j, word, a => a + 1, m', last')
  }

  /** The first element of a non-empty array, and the array of the rest. */
  function Split1(b: Atom): (Atom, Atom)
    requires IsArray(b)
  {
    match b
    case IntArray(xs) => if |xs| == 0 then (b, b) else (Int(xs[0]), IntArray(xs[1..]))
    case FloatArray(fs) => if |fs| == 0 then (b, b) else (Float(fs[0]), FloatArray(fs[1..]))
    case BoolArray(bs) => if |bs| == 0 then (b, b) else (Bool(bs[0]), BoolArray(bs[1..]))
    case StrArray(ss) => if |ss| == 0 then (b, b) else (Str(ss[0]), StrArray(ss[1..]))
  }

  function ArrayLength(b: Atom): nat
    requires IsArray(b)
  {
    match b
    case IntArray(xs) => |xs|
    case FloatArray(fs) => |fs|
    case BoolArray(bs) => |bs|
    case StrArray(ss) => |ss|
  }

  /** `for`: pop an array; when empty, continue after its `next`; otherwise
      push the rest of the array and then its first element. */
  function ForStep(j: Option<nat>, pc: nat, last: LoopKind, m: Machine): StepOut {
    var st := m.stack;
    if |st| == 0 then Fail(m, pc, last, "Stack-underflow-on-for")
    else if !IsArray(Top(st)) then
      Fail(m.(stack := Below(st)), pc, last, "'for' requires an INT, STRING, FLOAT, or BOOL array stack")
    else
      var b := Top(st);
      if ArrayLength(b) == 0 then Jump(j, "for", a => a + 1, m.(stack := Below(st)), ForLoop)
      else
        var (first, rest) := Split1(b);
        Go(m.(stack := Below(st) + [rest, first]), pc + 1, ForLoop, false)
  }

  /** The flow-control words at run time. */
  function FlowStep(kw: FlowWord, j: Option<nat>, pc: nat, codeSize: nat, last: LoopKind, m: Machine): StepOut {
    match kw
    case If => Condition("if", j, pc, last, m)
    case Else => Jump(j, "else", a => a + 1, m, last)
    case Endif => Go(m, pc + 1, last, false)
    case While => Condition("while", j, pc, last, m)
    case Loop => Jump(j, "loop", a => a, m, last)
    case For => ForStep(j, pc, last, m)
    case Next => Jump(j, "next", a => a, m, last)
    case Break => Jump(j, "break", a => a, if last == WhileLoop then Push(m, Bool(false)) else m, last)
    case Return => Go(m, codeSize, last, false)
  }

  /** The value pushed when a symbol is read, or the error for a content
      type that cannot be read back. */
  function ReadSymbol(v: Atom, ed: Edition): (r: Atom)
    ensures r.Error? <==> !(IsScalar(v) || v.IntArray?)
  {
    if !(IsScalar(v) || v.IntArray?) then Error("Illegal-Symbol-content-type")
    else if ed == AsWritten && v.Bool? then Bool(true)
    else v
  }

  /** A reference to a name: a symbol's value, or a function defined after
      the program was parsed, or an error. */
  function SymbolStep(n: string, pc: nat, last: LoopKind, m: Machine, ed: Edition): StepOut {
    if n in m.symbols then
      var v := ReadSymbol(m.symbols[n], ed);
      Go(Push(m, v), pc + 1, last, v.Error?)
    else if n in m.funcs then Call(n)
    else Fail(m, pc, last, "Undefined-symbol-reference: <" + n + ">")
  }

  /** The values a symbol can hold. */
  predicate Storable(v: Atom, ed: Edition) {
    (IsScalar(v) && (ed == Corrected || !v.Bool?)) || IsArray(v)
  }

  /** A symbol name starting with the `>` or `!` that mark store and delete
      words. */
  predicate MarkedSymbol(n: string) {
    |n| > 0 && (n[0] == '>' || n[0] == '!')
  }

  /** `>name`: pop the top into the symbol table. */
  function StoreStep(n: string, pc: nat, last: LoopKind, m: Machine, ed: Edition): StepOut {
    var st := m.stack;
    if IsReserved(n) || n in m.funcs then Fail(m, pc, last, "Name-in-use-by-func")
    else if |st| < 1 then Fail(m, pc, last, "Symdef-stack-underflow")
    else if !Storable(Top(st), ed) then Fail(m.(stack := Below(st)), pc, last, "Symdef-invalid-type")
    else if MarkedSymbol(n) then Fail(m.(stack := Below(st)), pc, last, "Symdef-invalid-name")
    else Go(m.(stack := Below(st), symbols := m.symbols[n := Top(st)]), pc + 1, last, false)
  }

  /** One atom at address `pc`, short of running a called function. */
  function Step(code: seq<Atom>, pc: nat, last: LoopKind, m: Machine, fl: FloatOps, ed: Edition): StepOut
    requires pc < |code|
  {
    var a := code[pc];
    match a
    case Int(_) => Go(Push(m, a), pc + 1, last, false)
    case Float(_) => Go(Push(m, a), pc + 1, last, false)
    case Bool(_) => Go(Push(m, a), pc + 1, last, false)
    case Str(_) => Go(Push(m, a), pc + 1, last, false)
    case IntArray(_) => Go(Push(m, a), pc + 1, last, false)
    case FloatArray(_) => Go(Push(m, a), pc + 1, last, false)
    case BoolArray(_) => Go(Push(m, a), pc + 1, last, false)
    case StrArray(_) => Go(Push(m, a), pc + 1, last, false)
    case Builtin(op, _) =>
      (match ApplyBuiltin(op, m.stack, fl)
       case Stop(why) => Stuck(why)
       case Continue(st) => Go(m.(stack := st), pc + 1, last, TopIsError(st)))
    case Flow(kw, j) => FlowStep(kw, j, pc, |code|, last, m)
    case Func(n) => if n in m.funcs then Call(n) else Go(m, pc + 1, last, true)
    case ShowFunc(n) => Go(m, pc + 1, last, n !in m.funcs)
    case DeleteFunc(n) =>
      if n !in m.funcs then Go(m, pc + 1, last, true)
      else if ed == AsWritten then SymbolStep(n, pc, last, m.(funcs := m.funcs - {n}), ed)
      else Go(m.(funcs := m.funcs - {n}), pc + 1, last, false)
    case Symbol(n) => SymbolStep(n, pc, last, m, ed)
    case StoreSymbol(n) => StoreStep(n, pc, last, m, ed)
    case DeleteSymbol(n) =>
      if n !in m.symbols then Fail(m, pc, last, "Symdelete-non-existant")
      else Go(m.(symbols := m.symbols - {n}), pc + 1, last, false)
    case Comment(_) => Go(m, pc + 1, last, false)
    case DefStart => Fail(m, pc, last, "Not-implemented")
    case DefEnd => Fail(m, pc, last, "Not-implemented")
    case Error(_) => Fail(m, pc, last, "Not-implemented")
  }

  /** The run loop from address `pc` with `budget` atoms left before the cap:
      the atom run with no budget left is the last. `fuel` bounds the depth of
      nested calls, which the source leaves unbounded. A called function runs
      under the same edition. */
  function Exec(code: seq<Atom>, pc: nat, last: LoopKind, m: Machine, fl: FloatOps, ed: Edition, fuel: nat, budget: nat): Outcome
    decreases fuel, 0, budget
  {
    if pc >= |code| then Done(m, true)
    else
      match Step(code, pc, last, m, fl, ed)
      case Stuck(why) => Stopped(why)
      case Go(m', pc', last', abort) =>
        if abort || budget == 0 then Finish(m')
        else Exec(code, pc', last', m', fl, ed, fuel, budget - 1)
      case Call(n) =>
        if fuel == 0 then Stopped(OutOfFuel)
        else
          match Eval(m.funcs[n], m, fl, ed, fuel - 1)
          case Stopped(why) => Stopped(why)
          case Done(m', _) =>
            if budget == 0 then Finish(m')
            else Exec(code, pc + 1, last, m', fl, ed, fuel, budget - 1)
  }

  /** `eval(func, pst)`: `Eval(code, m, fl, AsWritten, fuel)` is the source's;
      under `Corrected` the `else` rule and the dispatch slips are repaired. */
  function Eval(code: seq<Atom>, m: Machine, fl: FloatOps, ed: Edition, fuel: nat): Outcome
    decreases fuel, 1, 0
  {
    var ex := Extract(code, m.funcs);
    var m1 := m.(stack := m.stack + ErrorAtoms(ex.errors), funcs := ex.funcs);
    if |ex.errors| > 0 then Finish(m1)
    else
      match Resolve(ed, ex.body)
      case Unresolved(msg) => Finish(Push(m1, Error(msg)))
      case Resolved(c) => Exec(c, 0, NoLoop, m1, fl, ed, fuel, CycleCap)
  }

  /** The extraction errors as error atoms, in order. */
  function ErrorAtoms(msgs: seq<string>): seq<Atom> {
    seq(|msgs|, i requires 0 <= i < |msgs| => Error(msgs[i]))
  }
}
