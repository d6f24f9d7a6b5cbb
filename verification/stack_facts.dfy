/** Laws of the built-in words: the stack words undo one another, integer
    arithmetic follows C++ (truncating division whose quotient and remainder
    recombine), comparisons are complementary and converse, string order is a
    strict total order, and an operation fails exactly on the operands the
    source rejects. */
module StackFacts {
  import opened Numbers
  import opened Atoms
  import opened StackOps

  /** `dup` then `drop` leaves the stack as it was. */
  lemma {:induction false} DupThenDrop(st: seq<Atom>)
    requires |st| > 0
    ensures PopTop(DupTop(st), "drop") == Continue(st)
  {
    assert DupTop(st)[..|st|] == st;
  }

  /** `swap` twice leaves the stack as it was. */
  lemma {:induction false} SwapTwice(st: seq<Atom>)
    requires |st| >= 2
    ensures SwapTop(SwapTop(st)) == st
  {
    var s1 := SwapTop(st);
    assert s1[..|st| - 2] == st[..|st| - 2];
    assert SwapTop(s1) == st[..|st| - 2] + [st[|st| - 2], st[|st| - 1]];
    assert st == st[..|st| - 2] + [st[|st| - 2], st[|st| - 1]];
  }

  /** `dup2` repeats the top pair, so two drops after it restore the stack. */
  lemma {:induction false} DupPairThenDrops(st: seq<Atom>)
    requires |st| >= 2
    ensures DupPair(st) == st + st[|st| - 2..]
    ensures PopTop(DupPair(st), "drop").Continue?
    ensures PopTop(PopTop(DupPair(st), "drop").stack, "drop") == Continue(st)
  {
    var d := DupPair(st);
    assert d[..|d| - 1][..|st|] == st;
  }

  /** A built-in that runs out of operands pushes one error and changes
      nothing else. */
  lemma {:induction false} UnderflowPushesOneError(op: Op, st: seq<Atom>, fl: FloatOps)
    requires match op
      case Math(_) => |st| < 2
      case Compare(_) => |st| < 2
      case Logic(_) => |st| < 2
      case Dup => |st| < 1
      case Dup2 => |st| < 2
      case Swap => |st| < 2
      case Save => |st| < 1
      case Load => |st| < 1
      case EvalText => |st| < 1
      case _ => false
    ensures ApplyBuiltin(op, st, fl).Continue?
    ensures var r := ApplyBuiltin(op, st, fl).stack;
      |r| == |st| + 1 && r[..|st|] == st && r[|st|].Error?
  {
  }

  /** The operand pairs `math_2ops` rejects: a non-number, `%` with a float,
      or a zero divisor of `/` or `%`. */
  predicate MathRejects(m: MathOp, op1: Atom, op2: Atom, fl: FloatOps) {
    || AsNum(op1).None? || AsNum(op2).None?
    || (m == Mod && !(op1.Int? && op2.Int?))
    || ((m == Div || m == Mod) && IsZero(AsNum(op2).value, fl))
  }

  /** Arithmetic yields an error exactly on the rejected operands. */
  lemma {:induction false} MathErrorExactly(m: MathOp, op1: Atom, op2: Atom, fl: FloatOps)
    ensures MathResult(m, op1, op2, fl).Error? <==> MathRejects(m, op1, op2, fl)
  {
  }

  /** Two INTs on top are replaced by their sum, difference or product;
      `/` and `%` by a zero divisor leave the division error instead. */
  lemma {:induction false} IntMath(st: seq<Atom>, a: int, b: int, fl: FloatOps)
    ensures Math2(st + [Int(a), Int(b)], Add, fl) == st + [Int(a + b)]
    ensures Math2(st + [Int(a), Int(b)], Sub, fl) == st + [Int(a - b)]
    ensures Math2(st + [Int(a), Int(b)], Mul, fl) == st + [Int(a * b)]
    ensures Math2(st + [Int(a), Int(0)], Div, fl) == st + [Error("/-by-Zero")]
    ensures Math2(st + [Int(a), Int(0)], Mod, fl) == st + [Error("/-by-Zero")]
  {
    var s0, z := st + [Int(a), Int(b)], st + [Int(a), Int(0)];
    assert s0[..|s0| - 2] == st && s0[|s0| - 2] == Int(a) && s0[|s0| - 1] == Int(b);
    assert z[..|z| - 2] == st && z[|z| - 2] == Int(a) && z[|z| - 1] == Int(0);
  }

  /** With a FLOAT among two numbers, both go to the floating-point unit, an
      INT converted: the result is a FLOAT, except that `%` is unknown there
      and `/` by zero is an error. */
  lemma {:induction false} FloatMath(st: seq<Atom>, op1: Atom, op2: Atom, m: MathOp, fl: FloatOps)
    requires (op1.Int? || op1.Float?) && (op2.Int? || op2.Float?) && (op1.Float? || op2.Float?)
    ensures var n1, n2 := if op1.Int? then NInt(op1.v) else NFloat(op1.text), if op2.Int? then NInt(op2.v) else NFloat(op2.text);
      var r := Math2(st + [op1, op2], m, fl);
      && (m == Mod ==> r == st + [Error("Unknown math-2ops: %")])
      && (m == Div && IsZero(n2, fl) ==> r == st + [Error("/-by-Zero")])
      && (m != Mod && !(m == Div && IsZero(n2, fl)) ==> r == st + [Float(fl.arith(m, n1, n2))])
  {
    var s0 := st + [op1, op2];
    assert s0[..|s0| - 2] == st && s0[|s0| - 2] == op1 && s0[|s0| - 1] == op2;
  }

  /** An operand that is not a number is rejected, whatever the operation. */
  lemma {:induction false} MathWrongType(st: seq<Atom>, op1: Atom, op2: Atom, m: MathOp, fl: FloatOps)
    requires !(op1.Int? || op1.Float?) || !(op2.Int? || op2.Float?)
    ensures Math2(st + [op1, op2], m, fl) == st + [Error("Math-" + MathSymbol(m) + "-Wrong-Type-Operands")]
  {
    var s0 := st + [op1, op2];
    assert s0[..|s0| - 2] == st && s0[|s0| - 2] == op1 && s0[|s0| - 1] == op2;
  }

  /** Two INTs compare as integers. */
  lemma {:induction false} IntCmp(st: seq<Atom>, a: int, b: int, fl: FloatOps)
    ensures Cmp2(st + [Int(a), Int(b)], Eq, fl) == st + [Bool(a == b)]
    ensures Cmp2(st + [Int(a), Int(b)], Ne, fl) == st + [Bool(a != b)]
    ensures Cmp2(st + [Int(a), Int(b)], Lt, fl) == st + [Bool(a < b)]
    ensures Cmp2(st + [Int(a), Int(b)], Le, fl) == st + [Bool(a <= b)]
    ensures Cmp2(st + [Int(a), Int(b)], Gt, fl) == st + [Bool(a > b)]
    ensures Cmp2(st + [Int(a), Int(b)], Ge, fl) == st + [Bool(a >= b)]
  {
    var s0 := st + [Int(a), Int(b)];
    assert s0[..|s0| - 2] == st && s0[|s0| - 2] == Int(a) && s0[|s0| - 1] == Int(b);
  }

  /** With a FLOAT among two numbers the floating-point unit answers. */
  lemma {:induction false} FloatCmp(st: seq<Atom>, op1: Atom, op2: Atom, c: CmpOp, fl: FloatOps)
    requires (op1.Int? || op1.Float?) && (op2.Int? || op2.Float?) && (op1.Float? || op2.Float?)
    ensures var n1, n2 := if op1.Int? then NInt(op1.v) else NFloat(op1.text), if op2.Int? then NInt(op2.v) else NFloat(op2.text);
      Cmp2(st + [op1, op2], c, fl) == st + [Bool(fl.compare(c, n1, n2))]
  {
    var s0 := st + [op1, op2];
    assert s0[..|s0| - 2] == st && s0[|s0| - 2] == op1 && s0[|s0| - 1] == op2;
  }

  /** Two STRINGs compare by `std::string` order. */
  lemma {:induction false} StrCmp(st: seq<Atom>, x: string, y: string, fl: FloatOps)
    ensures Cmp2(st + [Str(x), Str(y)], Eq, fl) == st + [Bool(x == y)]
    ensures Cmp2(st + [Str(x), Str(y)], Ne, fl) == st + [Bool(x != y)]
    ensures Cmp2(st + [Str(x), Str(y)], Lt, fl) == st + [Bool(StrLess(x, y))]
    ensures Cmp2(st + [Str(x), Str(y)], Le, fl) == st + [Bool(StrLess(x, y) || x == y)]
    ensures Cmp2(st + [Str(x), Str(y)], Gt, fl) == st + [Bool(StrLess(y, x))]
    ensures Cmp2(st + [Str(x), Str(y)], Ge, fl) == st + [Bool(StrLess(y, x) || x == y)]
  {
    var s0 := st + [Str(x), Str(y)];
    assert s0[..|s0| - 2] == st && s0[|s0| - 2] == Str(x) && s0[|s0| - 1] == Str(y);
    StrLessTrichotomy(x, y);
    StrLessAsymmetric(x, y);
    if x == y {
      StrLessIrreflexive(x);
    }
  }

  /** A pair that is neither two numbers, nor two BOOLs, nor two STRINGs is
      rejected with the arithmetic error text. */
  lemma {:induction false} CmpWrongType(st: seq<Atom>, op1: Atom, op2: Atom, c: CmpOp, fl: FloatOps)
    requires !((op1.Int? || op1.Float?) && (op2.Int? || op2.Float?))
    requires !(op1.Bool? && op2.Bool?) && !(op1.Str? && op2.Str?)
    ensures Cmp2(st + [op1, op2], c, fl) == st + [Error("Math-" + CmpSymbol(c) + "-Wrong-Type-Operands")]
  {
    var s0 := st + [op1, op2];
    assert s0[..|s0| - 2] == st && s0[|s0| - 2] == op1 && s0[|s0| - 1] == op2;
  }

  /** On two INTs, `and` and `or` treat each as true exactly when non-zero. */
  lemma {:induction false} IntLogic(st: seq<Atom>, a: int, b: int)
    ensures Bool2(st + [Int(a), Int(b)], And) == st + [Bool(a != 0 && b != 0)]
    ensures Bool2(st + [Int(a), Int(b)], Or) == st + [Bool(a != 0 || b != 0)]
  {
    var s0 := st + [Int(a), Int(b)];
    assert s0[..|s0| - 2] == st && s0[|s0| - 2] == Int(a) && s0[|s0| - 1] == Int(b);
  }

  /** On two BOOLs, `and` and `or` are the logical connectives. */
  lemma {:induction false} BoolLogic(st: seq<Atom>, x: bool, y: bool)
    ensures Bool2(st + [Bool(x), Bool(y)], And) == st + [Bool(x && y)]
    ensures Bool2(st + [Bool(x), Bool(y)], Or) == st + [Bool(x || y)]
  {
    var s0 := st + [Bool(x), Bool(y)];
    assert s0[..|s0| - 2] == st && s0[|s0| - 2] == Bool(x) && s0[|s0| - 1] == Bool(y);
  }

  /** An operand that is neither INT nor BOOL is rejected. */
  lemma {:induction false} LogicWrongType(st: seq<Atom>, op1: Atom, op2: Atom, l: LogicOp)
    requires !(op1.Int? || op1.Bool?) || !(op2.Int? || op2.Bool?)
    ensures Bool2(st + [op1, op2], l) == st + [Error("Bool-requires-int-or-bool-Operands")]
  {
    var s0 := st + [op1, op2];
    assert s0[..|s0| - 2] == st && s0[|s0| - 2] == op1 && s0[|s0| - 1] == op2;
  }

  /** `+` then `-` of the same integer gives the first operand back. */
  lemma {:induction false} AddThenSub(st: seq<Atom>, a: int, b: int, fl: FloatOps)
    ensures Math2(Math2(st + [Int(a), Int(b)], Add, fl) + [Int(b)], Sub, fl) == st + [Int(a)]
  {
    var s0 := st + [Int(a), Int(b)];
    assert s0[..|s0| - 2] == st;
    var s1 := Math2(s0, Add, fl) + [Int(b)];
    assert s1 == st + [Int(a + b), Int(b)];
    assert s1[..|s1| - 2] == st;
  }

  /** Integer `/` and `%` on the same operands: the quotient times the divisor
      plus the remainder is the dividend, the remainder is smaller than the
      divisor in magnitude and has the dividend's sign (C++ truncation). */
  lemma {:induction false} DivModRecombine(st: seq<Atom>, a: int, b: int, fl: FloatOps)
    requires b != 0
    ensures var q := Math2(st + [Int(a), Int(b)], Div, fl);
      var r := Math2(st + [Int(a), Int(b)], Mod, fl);
      && q == st + [Int(q[|st|].v)] && r == st + [Int(r[|st|].v)]
      && q[|st|].v * b + r[|st|].v == a
      && Abs(r[|st|].v) < Abs(b)
      && (r[|st|].v == 0 || (r[|st|].v < 0) == (a < 0))
  {
    var s0 := st + [Int(a), Int(b)];
    assert s0[..|s0| - 2] == st;
    TruncDivModLaw(a, b);
  }

  /** The comparison that holds exactly when `c` does not. */
  function Negation(c: CmpOp): CmpOp {
    match c
    case Eq => Ne
    case Ne => Eq
    case Lt => Ge
    case Ge => Lt
    case Gt => Le
    case Le => Gt
  }

  /** The comparison `c` with its operands exchanged. */
  function Converse(c: CmpOp): CmpOp {
    match c
    case Eq => Eq
    case Ne => Ne
    case Lt => Gt
    case Gt => Lt
    case Le => Ge
    case Ge => Le
  }

  /** On two integers or two strings every comparison is answered, its
      negation gives the opposite answer, and exchanging the operands with
      the converse comparison gives the same answer. */
  lemma {:induction false} CompareLaws(c: CmpOp, op1: Atom, op2: Atom, fl: FloatOps)
    requires (op1.Int? && op2.Int?) || (op1.Str? && op2.Str?)
    ensures CmpResult(c, op1, op2, fl).Bool?
    ensures CmpResult(Negation(c), op1, op2, fl) == Bool(!CmpResult(c, op1, op2, fl).b)
    ensures CmpResult(Converse(c), op2, op1, fl) == CmpResult(c, op1, op2, fl)
  {
    if op1.Str? {
      StrLessTrichotomy(op1.s, op2.s);
      StrLessAsymmetric(op1.s, op2.s);
    }
  }

  /** Two booleans compare only for equality. */
  lemma {:induction false} BoolCompare(c: CmpOp, x: bool, y: bool, fl: FloatOps)
    ensures CmpResult(c, Bool(x), Bool(y), fl).Bool? <==> (c == Eq || c == Ne)
    ensures c == Eq ==> CmpResult(c, Bool(x), Bool(y), fl) == Bool(x == y)
    ensures c == Ne ==> CmpResult(c, Bool(x), Bool(y), fl) == Bool(x != y)
  {
  }

  lemma {:induction false} StrLessIrreflexive(x: string)
    ensures !StrLess(x, x)
    decreases |x|
  {
    if |x| > 0 {
      StrLessIrreflexive(x[1..]);
    }
  }

  lemma {:induction false} StrLessAsymmetric(x: string, y: string)
    ensures !(StrLess(x, y) && StrLess(y, x))
    decreases |x|
  {
    if |x| > 0 && |y| > 0 && x[0] == y[0] {
      StrLessAsymmetric(x[1..], y[1..]);
    }
  }

  /** Of two strings exactly one is smaller, or they are equal. */
  lemma {:induction false} StrLessTrichotomy(x: string, y: string)
    ensures StrLess(x, y) || x == y || StrLess(y, x)
    decreases |x|
  {
    if |x| > 0 && |y| > 0 && x[0] == y[0] {
      StrLessTrichotomy(x[1..], y[1..]);
      if x[1..] == y[1..] {
        assert x == [x[0]] + x[1..] && y == [y[0]] + y[1..];
      }
    }
  }

  lemma {:induction false} StrLessTransitive(x: string, y: string, z: string)
    requires StrLess(x, y) && StrLess(y, z)
    ensures StrLess(x, z)
    decreases |x|
  {
    if |x| > 0 && x[0] == y[0] && y[0] == z[0] {
      StrLessTransitive(x[1..], y[1..], z[1..]);
    }
  }

  /** `and` and `or` do not depend on the order of their operands, and an
      integer operand counts as true when non-zero. */
  lemma {:induction false} LogicLaws(l: LogicOp, op1: Atom, op2: Atom)
    ensures LogicResult(l, op1, op2) == LogicResult(l, op2, op1)
    ensures LogicResult(l, op1, op2).Bool? <==> (op1.Bool? || op1.Int?) && (op2.Bool? || op2.Int?)
    ensures LogicResult(And, Int(0), op2) == (if Truth(op2).Some? then Bool(false) else Error("Bool-requires-int-or-bool-Operands"))
  {
  }
}
