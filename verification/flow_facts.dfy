/** Flow control at run time: `if`/`else` runs exactly one branch, `for`
    walks an array, `while` counts down to zero or is cut off by the cycle
    cap, and `return` ends the run. */
module FlowFacts {
  import opened Atoms
  import opened StackOps
  import opened Definitions
  import opened Jumps
  import opened JumpFacts
  import opened Engine
  import opened EngineFacts

  function F(w: FlowWord): Atom {
    Flow(w, None)
  }

  function J(w: FlowWord, a: nat): Atom {
    Flow(w, Some(a))
  }

  // if / else

  /** `c if x else y endif`. */
  function IfElseCode(c: Atom, x: Atom, y: Atom): seq<Atom> {
    [c, F(If), x, F(Else), y, F(Endif)]
  }

  lemma {:induction false} ResolveIfElse(ed: Edition, c: Atom, x: Atom, y: Atom)
    requires !c.Flow? && !x.Flow? && !y.Flow?
    ensures Resolve(ed, IfElseCode(c, x, y)) == Resolved(IfElseLinked(c, x, y))
  {
    var lv1 := NoLevels.(ifs := [1]);
    var lv2 := lv1.(elses := [1]);
    ResolveIfOpen(ed, c, x, y);
    ResolveIfElseWord(ed, c, x, y);
    var c3 := IfElseLinked(c, x, y);
    StepPlain(ed, IfElsed(c, x, y), 4, lv2);
    StepEndif(ed, IfElsed(c, x, y), 5, lv2);
    IfElseJumps(c, x, y);
    assert lv2.(ifs := Pop(lv2.ifs)) == lv2.(ifs := []);
    StepEnd(ed, c3, lv2.(ifs := []));
  }

  /** The program while it is resolved: the `if` opened, then linked to its
      `else`. */
  function IfOpened(c: Atom, x: Atom, y: Atom): seq<Atom> {
    [c, J(If, 0), x, F(Else), y, F(Endif)]
  }

  function IfElsed(c: Atom, x: Atom, y: Atom): seq<Atom> {
    [c, J(If, 3), x, F(Else), y, F(Endif)]
  }

  lemma {:induction false} IfElseJumps(c: Atom, x: Atom, y: Atom)
    ensures SetJump(IfElseCode(c, x, y), 1, 0) == IfOpened(c, x, y)
    ensures SetJump(IfOpened(c, x, y), 1, 3) == IfElsed(c, x, y)
    ensures SetJump(IfElsed(c, x, y), 3, 5) == IfElseLinked(c, x, y)
  {
  }

  lemma {:induction false} ResolveIfOpen(ed: Edition, c: Atom, x: Atom, y: Atom)
    requires !c.Flow?
    ensures ResolveFrom(ed, IfElseCode(c, x, y), 0, NoLevels)
         == ResolveFrom(ed, IfOpened(c, x, y), 2, NoLevels.(ifs := [1]))
  {
    var code := IfElseCode(c, x, y);
    StepPlain(ed, code, 0, NoLevels);
    StepOpen(ed, code, 1, NoLevels);
    IfElseJumps(c, x, y);
    assert NoLevels.(ifs := NoLevels.ifs + [1]) == NoLevels.(ifs := [1]);
  }

  lemma {:induction false} ResolveIfElseWord(ed: Edition, c: Atom, x: Atom, y: Atom)
    requires !x.Flow?
    ensures ResolveFrom(ed, IfOpened(c, x, y), 2, NoLevels.(ifs := [1]))
         == ResolveFrom(ed, IfElsed(c, x, y), 4, NoLevels.(ifs := [1], elses := [1]))
  {
    var c1 := IfOpened(c, x, y);
    var lv1 := NoLevels.(ifs := [1]);
    StepPlain(ed, c1, 2, lv1);
    assert ElseAllowed(ed, c1, lv1);
    StepElse(ed, c1, 3, lv1);
    IfElseJumps(c, x, y);
    assert lv1.(elses := lv1.elses + [Jumps.Top(lv1.ifs)]) == NoLevels.(ifs := [1], elses := [1]);
  }

  /** `c if x else y endif` pushes `x` when `c` is true (a non-zero INT or
      `true`) and `y` when it is false; any other condition aborts with the
      condition popped and nothing else changed. */
  lemma {:induction false} IfElseSelects(c: Atom, x: Atom, y: Atom, m: Machine, fl: FloatOps, ed: Edition, fuel: nat)
    requires IsValue(c) && IsValue(x) && IsValue(y)
    ensures Truth(c).Some? ==>
      Eval(IfElseCode(c, x, y), m, fl, ed, fuel) == Done(m.(stack := m.stack + [if Truth(c).value then x else y]), true)
    ensures Truth(c).None? ==> Eval(IfElseCode(c, x, y), m, fl, ed, fuel) == Done(m, false)
  {
    IfElseEval(c, x, y, m, fl, ed, fuel);
    IfElseRun(c, x, y, m, fl, ed, fuel);
  }

  /** The program evaluates as the run of its linked form. */
  lemma {:induction false} IfElseEval(c: Atom, x: Atom, y: Atom, m: Machine, fl: FloatOps, ed: Edition, fuel: nat)
    requires IsValue(c) && IsValue(x) && IsValue(y)
    ensures Eval(IfElseCode(c, x, y), m, fl, ed, fuel) == Exec(IfElseLinked(c, x, y), 0, NoLoop, m, fl, ed, fuel, CycleCap)
  {
    var code, linked := IfElseCode(c, x, y), IfElseLinked(c, x, y);
    ResolveIfElse(ed, c, x, y);
    IfElseNoDefs(c, x, y);
    EvalResolved(code, linked, m, fl, ed, fuel);
  }

  lemma {:induction false} IfElseNoDefs(c: Atom, x: Atom, y: Atom)
    requires IsValue(c) && IsValue(x) && IsValue(y)
    ensures NoDefWords(IfElseCode(c, x, y))
  {
  }

  function IfElseLinked(c: Atom, x: Atom, y: Atom): seq<Atom> {
    [c, J(If, 3), x, J(Else, 5), y, F(Endif)]
  }

  lemma {:induction false} IfElseRun(c: Atom, x: Atom, y: Atom, m: Machine, fl: FloatOps, ed: Edition, fuel: nat)
    requires IsValue(c) && IsValue(x) && IsValue(y)
    ensures var r := Exec(IfElseLinked(c, x, y), 0, NoLoop, m, fl, ed, fuel, CycleCap);
      && (Truth(c).Some? ==> r == Done(m.(stack := m.stack + [if Truth(c).value then x else y]), true))
      && (Truth(c).None? ==> r == Done(m, false))
  {
    var code := IfElseLinked(c, x, y);
    var m0 := m.(stack := m.stack + [c]);
    StepValue(code, 0, NoLoop, m, fl, ed);
    ExecStep(code, 0, NoLoop, m, fl, ed, fuel, CycleCap, m0, 1, NoLoop, false);
    var r0 := Exec(code, 0, NoLoop, m, fl, ed, fuel, CycleCap);
    var r1 := Exec(code, 1, NoLoop, m0, fl, ed, fuel, CycleCap - 1);
    assert r0 == r1;
    match Truth(c)
    case None => IfBadCondition(c, x, y, m, fl, ed, fuel, CycleCap - 1);
    case Some(true) => IfThenBranch(c, x, y, m, fl, ed, fuel, CycleCap - 1);
    case Some(false) => IfElseBranch(c, x, y, m, fl, ed, fuel, CycleCap - 1);
  }

  lemma {:induction false} IfBadCondition(c: Atom, x: Atom, y: Atom, m: Machine, fl: FloatOps, ed: Edition, fuel: nat, budget: nat)
    requires Truth(c).None?
    ensures Exec(IfElseLinked(c, x, y), 1, NoLoop, m.(stack := m.stack + [c]), fl, ed, fuel, budget) == Done(m, false)
  {
    var code := IfElseLinked(c, x, y);
    var m0 := m.(stack := m.stack + [c]);
    assert m0.stack[..|m0.stack| - 1] == m.stack;
    var m1 := m.(stack := m.stack + [Error("No-int-or-bool-for-" + "if")]);
    assert Step(code, 1, NoLoop, m0, fl, ed) == Go(m1, 2, NoLoop, true);
    ExecStep(code, 1, NoLoop, m0, fl, ed, fuel, budget, m1, 2, NoLoop, true);
  }

  lemma {:induction false} IfThenBranch(c: Atom, x: Atom, y: Atom, m: Machine, fl: FloatOps, ed: Edition, fuel: nat, budget: nat)
    requires Truth(c) == Some(true) && IsValue(x) && budget >= 3
    ensures Exec(IfElseLinked(c, x, y), 1, NoLoop, m.(stack := m.stack + [c]), fl, ed, fuel, budget)
         == Done(m.(stack := m.stack + [x]), true)
  {
    var code := IfElseLinked(c, x, y);
    var m0 := m.(stack := m.stack + [c]);
    assert m0.stack[..|m0.stack| - 1] == m.stack;
    assert Step(code, 1, NoLoop, m0, fl, ed) == Go(m, 2, NoLoop, false);
    ExecStep(code, 1, NoLoop, m0, fl, ed, fuel, budget, m, 2, NoLoop, false);
    var m2 := m.(stack := m.stack + [x]);
    StepValue(code, 2, NoLoop, m, fl, ed);
    ExecStep(code, 2, NoLoop, m, fl, ed, fuel, budget - 1, m2, 3, NoLoop, false);
    assert Step(code, 3, NoLoop, m2, fl, ed) == Go(m2, 6, NoLoop, false);
    ExecStep(code, 3, NoLoop, m2, fl, ed, fuel, budget - 2, m2, 6, NoLoop, false);
    ExecEnd(code, 6, NoLoop, m2, fl, ed, fuel, budget - 3);
  }

  lemma {:induction false} IfElseBranch(c: Atom, x: Atom, y: Atom, m: Machine, fl: FloatOps, ed: Edition, fuel: nat, budget: nat)
    requires Truth(c) == Some(false) && IsValue(y) && budget >= 3
    ensures Exec(IfElseLinked(c, x, y), 1, NoLoop, m.(stack := m.stack + [c]), fl, ed, fuel, budget)
         == Done(m.(stack := m.stack + [y]), true)
  {
    var code := IfElseLinked(c, x, y);
    var m0 := m.(stack := m.stack + [c]);
    assert m0.stack[..|m0.stack| - 1] == m.stack;
    assert Step(code, 1, NoLoop, m0, fl, ed) == Go(m, 4, NoLoop, false);
    ExecStep(code, 1, NoLoop, m0, fl, ed, fuel, budget, m, 4, NoLoop, false);
    var m4 := m.(stack := m.stack + [y]);
    StepValue(code, 4, NoLoop, m, fl, ed);
    ExecStep(code, 4, NoLoop, m, fl, ed, fuel, budget - 1, m4, 5, NoLoop, false);
    ExecStep(code, 5, NoLoop, m4, fl, ed, fuel, budget - 2, m4, 6, NoLoop, false);
    ExecEnd(code, 6, NoLoop, m4, fl, ed, fuel, budget - 3);
  }

  // for / next

  /** `xs for swap next`: every pass swaps the element below the rest of the
      array, so the elements are left on the stack in order. */
  function UnpackCode(xs: seq<int>): seq<Atom> {
    [IntArray(xs), F(For), Builtin(Swap, "swap"), F(Next)]
  }

  function UnpackLinked(xs: seq<int>): seq<Atom> {
    [IntArray(xs), J(For, 3), Builtin(Swap, "swap"), J(Next, 1)]
  }

  /** The integers as INT atoms, in order. */
  function Ints(xs: seq<int>): (r: seq<Atom>)
    ensures |r| == |xs|
  {
    if |xs| == 0 then [] else [Int(xs[0])] + Ints(xs[1..])
  }

  lemma {:induction false} ResolveUnpack(ed: Edition, xs: seq<int>)
    ensures Resolve(ed, UnpackCode(xs)) == Resolved(UnpackLinked(xs))
  {
    var code := UnpackCode(xs);
    var lv := NoLevels.(fors := [1], last := ForLoop);
    StepPlain(ed, code, 0, NoLevels);
    StepOpen(ed, code, 1, NoLevels);
    StepPlain(ed, code, 2, lv);
    StepNext(ed, code, 3, lv);
    UnpackJumps(xs);
    StepEnd(ed, UnpackLinked(xs), lv.(fors := []));
  }

  lemma {:induction false} UnpackJumps(xs: seq<int>)
    ensures SetJump(SetJump(UnpackCode(xs), 3, 1), 1, 3) == UnpackLinked(xs)
  {
  }

  /** One pass of the loop: `for` takes the first element, `swap` puts it
      below the rest, `next` goes back to the `for`. */
  lemma {:induction false} UnpackPass(xs: seq<int>, ys: seq<int>, s: seq<Atom>, last: LoopKind, m: Machine, fl: FloatOps, ed: Edition, fuel: nat,
                    budget: nat, after: nat)
    requires |ys| > 0 && budget == after + 3
    ensures Exec(UnpackLinked(xs), 1, last, m.(stack := s + [IntArray(ys)]), fl, ed, fuel, budget)
         == Exec(UnpackLinked(xs), 1, ForLoop, m.(stack := s + [Int(ys[0])] + [IntArray(ys[1..])]), fl, ed, fuel, after)
  {
    var code, b1, b2 := UnpackLinked(xs), after + 2, after + 1;
    var m0 := m.(stack := s + [IntArray(ys)]);
    var m1 := m.(stack := s + [IntArray(ys[1..]), Int(ys[0])]);
    var m2 := m.(stack := s + [Int(ys[0])] + [IntArray(ys[1..])]);
    UnpackSteps(xs, ys, s, last, m, fl, ed);
    ExecGo(code, 1, last, m0, fl, ed, fuel, budget, m1, 2, ForLoop, b1);
    ExecGo(code, 2, ForLoop, m1, fl, ed, fuel, b1, m2, 3, ForLoop, b2);
    ExecGo(code, 3, ForLoop, m2, fl, ed, fuel, b2, m2, 1, ForLoop, after);
    ExecChain(code, fl, ed, fuel, 1, last, m0, budget, 2, ForLoop, m1, b1, 3, ForLoop, m2, b2);
    ExecChain(code, fl, ed, fuel, 1, last, m0, budget, 3, ForLoop, m2, b2, 1, ForLoop, m2, after);
  }

  /** The three atoms of a pass: `for` pops the array and pushes the rest and
      the first element, `swap` exchanges them, `next` goes back. */
  lemma {:induction false} UnpackSteps(xs: seq<int>, ys: seq<int>, s: seq<Atom>, last: LoopKind, m: Machine, fl: FloatOps, ed: Edition)
    requires |ys| > 0
    ensures Step(UnpackLinked(xs), 1, last, m.(stack := s + [IntArray(ys)]), fl, ed)
         == Go(m.(stack := s + [IntArray(ys[1..]), Int(ys[0])]), 2, ForLoop, false)
    ensures Step(UnpackLinked(xs), 2, ForLoop, m.(stack := s + [IntArray(ys[1..]), Int(ys[0])]), fl, ed)
         == Go(m.(stack := s + [Int(ys[0])] + [IntArray(ys[1..])]), 3, ForLoop, false)
    ensures Step(UnpackLinked(xs), 3, ForLoop, m.(stack := s + [Int(ys[0])] + [IntArray(ys[1..])]), fl, ed)
         == Go(m.(stack := s + [Int(ys[0])] + [IntArray(ys[1..])]), 1, ForLoop, false)
  {
    var m0 := m.(stack := s + [IntArray(ys)]);
    var m1 := m.(stack := s + [IntArray(ys[1..]), Int(ys[0])]);
    var m2 := m.(stack := s + [Int(ys[0])] + [IntArray(ys[1..])]);
    assert m0.stack[..|m0.stack| - 1] == s;
    assert SwapTop(m1.stack) == m2.stack;
  }

  lemma {:induction false} UnpackFrom(xs: seq<int>, ys: seq<int>, s: seq<Atom>, last: LoopKind, m: Machine, fl: FloatOps, ed: Edition, fuel: nat, budget: nat)
    requires 3 * |ys| < budget
    ensures Exec(UnpackLinked(xs), 1, last, m.(stack := s + [IntArray(ys)]), fl, ed, fuel, budget)
         == Done(m.(stack := s + Ints(ys)), true)
    decreases |ys|
  {
    if |ys| == 0 {
      UnpackLast(xs, ys, s, last, m, fl, ed, fuel, budget);
    } else {
      var rest, s', after := ys[1..], s + [Int(ys[0])], budget - 3;
      UnpackFrom(xs, rest, s', ForLoop, m, fl, ed, fuel, after);
      UnpackMore(xs, ys, rest, s, s', last, m, fl, ed, fuel, budget, after);
    }
  }

  lemma {:induction false} UnpackLast(xs: seq<int>, ys: seq<int>, s: seq<Atom>, last: LoopKind, m: Machine, fl: FloatOps, ed: Edition, fuel: nat, budget: nat)
    requires |ys| == 0 && budget > 0
    ensures Exec(UnpackLinked(xs), 1, last, m.(stack := s + [IntArray(ys)]), fl, ed, fuel, budget)
         == Done(m.(stack := s + Ints(ys)), true)
  {
    assert ys == [];
    UnpackEmpty(xs, s, last, m, fl, ed, fuel, budget);
    assert s + Ints(ys) == s;
  }

  /** One pass followed by the unpacking of the rest unpacks the whole. */
  lemma {:induction false} UnpackMore(xs: seq<int>, ys: seq<int>, rest: seq<int>, s: seq<Atom>, s': seq<Atom>, last: LoopKind, m: Machine,
                    fl: FloatOps, ed: Edition, fuel: nat, budget: nat, after: nat)
    requires |ys| > 0 && rest == ys[1..] && s' == s + [Int(ys[0])] && budget == after + 3
    requires Exec(UnpackLinked(xs), 1, ForLoop, m.(stack := s' + [IntArray(rest)]), fl, ed, fuel, after)
          == Done(m.(stack := s' + Ints(rest)), true)
    ensures Exec(UnpackLinked(xs), 1, last, m.(stack := s + [IntArray(ys)]), fl, ed, fuel, budget)
         == Done(m.(stack := s + Ints(ys)), true)
  {
    UnpackPass(xs, ys, s, last, m, fl, ed, fuel, budget, after);
    IntsCons(s, ys);
  }

  lemma {:induction false} IntsCons(s: seq<Atom>, ys: seq<int>)
    requires |ys| > 0
    ensures s + [Int(ys[0])] + Ints(ys[1..]) == s + Ints(ys)
  {
    IntsHead(ys);
    AppendAssoc(s, [Int(ys[0])], Ints(ys[1..]));
  }

  lemma {:induction false} IntsHead(ys: seq<int>)
    requires |ys| > 0
    ensures Ints(ys) == [Int(ys[0])] + Ints(ys[1..])
  {
  }

  lemma {:induction false} AppendAssoc(a: seq<Atom>, b: seq<Atom>, c: seq<Atom>)
    ensures a + b + c == a + (b + c)
  {
  }

  /** The last `for` meets the empty rest and jumps past its `next`. */
  lemma {:induction false} UnpackEmpty(xs: seq<int>, s: seq<Atom>, last: LoopKind, m: Machine, fl: FloatOps, ed: Edition, fuel: nat, budget: nat)
    requires budget > 0
    ensures Exec(UnpackLinked(xs), 1, last, m.(stack := s + [IntArray([])]), fl, ed, fuel, budget) == Done(m.(stack := s), true)
  {
    var code := UnpackLinked(xs);
    var m0 := m.(stack := s + [IntArray([])]);
    assert m0.stack[..|m0.stack| - 1] == s;
    assert Step(code, 1, last, m0, fl, ed) == Go(m.(stack := s), 4, ForLoop, false);
    ExecStep(code, 1, last, m0, fl, ed, fuel, budget, m.(stack := s), 4, ForLoop, false);
    ExecEnd(code, 4, ForLoop, m.(stack := s), fl, ed, fuel, budget - 1);
  }

  /** `xs for swap next` leaves the elements of `xs` on the stack, in order,
      when the 3 atoms of each pass fit the cycle cap. */
  lemma {:induction false} ForUnpacks(xs: seq<int>, m: Machine, fl: FloatOps, ed: Edition, fuel: nat)
    requires 3 * |xs| + 1 < CycleCap
    ensures Eval(UnpackCode(xs), m, fl, ed, fuel) == Done(m.(stack := m.stack + Ints(xs)), true)
  {
    ResolveUnpack(ed, xs);
    EvalResolved(UnpackCode(xs), UnpackLinked(xs), m, fl, ed, fuel);
    UnpackRun(xs, m, fl, ed, fuel);
  }

  lemma {:induction false} UnpackRun(xs: seq<int>, m: Machine, fl: FloatOps, ed: Edition, fuel: nat)
    requires 3 * |xs| + 1 < CycleCap
    ensures Exec(UnpackLinked(xs), 0, NoLoop, m, fl, ed, fuel, CycleCap) == Done(m.(stack := m.stack + Ints(xs)), true)
  {
    var code := UnpackLinked(xs);
    StepValue(code, 0, NoLoop, m, fl, ed);
    ExecStep(code, 0, NoLoop, m, fl, ed, fuel, CycleCap, m.(stack := m.stack + [IntArray(xs)]), 1, NoLoop, false);
    UnpackFrom(xs, xs, m.stack, NoLoop, m, fl, ed, fuel, CycleCap - 1);
  }

  // while / loop

  /** `n dup while 1 - dup loop`: counts the top of the stack down to 0. */
  function CountdownCode(n: int): seq<Atom> {
    [Int(n), Builtin(Dup, "dup"), F(While), Int(1), Builtin(Math(Sub), "-"), Builtin(Dup, "dup"), F(Loop)]
  }

  function CountdownLinked(n: int): seq<Atom> {
    [Int(n), Builtin(Dup, "dup"), J(While, 6), Int(1), Builtin(Math(Sub), "-"), Builtin(Dup, "dup"), J(Loop, 2)]
  }

  lemma {:induction false} ResolveCountdown(ed: Edition, n: int)
    ensures Resolve(ed, CountdownCode(n)) == Resolved(CountdownLinked(n))
  {
    var code := CountdownCode(n);
    var lv := NoLevels.(whiles := [2], last := WhileLoop);
    StepPlain(ed, code, 0, NoLevels);
    StepPlain(ed, code, 1, NoLevels);
    StepOpen(ed, code, 2, NoLevels);
    assert NoLevels.(whiles := NoLevels.whiles + [2], last := WhileLoop) == lv;
    StepPlain(ed, code, 3, lv);
    StepPlain(ed, code, 4, lv);
    StepPlain(ed, code, 5, lv);
    StepLoop(ed, code, 6, lv);
    CountdownJumps(n);
    assert lv.(whiles := Pop(lv.whiles)) == lv.(whiles := []);
    StepEnd(ed, CountdownLinked(n), lv.(whiles := []));
  }

  lemma {:induction false} CountdownJumps(n: int)
    ensures SetJump(SetJump(CountdownCode(n), 6, 2), 2, 6) == CountdownLinked(n)
  {
  }

  /** One pass of the loop body for a non-zero counter `k`: from the `while`
      back to it with `k - 1`. */
  lemma {:induction false} CountdownPass(n: int, k: int, s: seq<Atom>, last: LoopKind, m: Machine, fl: FloatOps, ed: Edition, fuel: nat,
                      budget: nat, after: nat)
    requires k != 0 && budget == after + 5
    ensures Exec(CountdownLinked(n), 2, last, m.(stack := s + [Int(k), Int(k)]), fl, ed, fuel, budget)
         == Exec(CountdownLinked(n), 2, WhileLoop, m.(stack := s + [Int(k - 1), Int(k - 1)]), fl, ed, fuel, after)
  {
    var code, m0, m1, m2, mid := CountdownLinked(n), m.(stack := s + [Int(k), Int(k)]), m.(stack := s + [Int(k)]),
      m.(stack := s + [Int(k - 1), Int(k - 1)]), after + 4;
    WhileSteps(n, k, s, last, m, fl, ed);
    ExecGo(code, 2, last, m0, fl, ed, fuel, budget, m1, 3, WhileLoop, mid);
    CountdownBody(n, k, s, m, fl, ed, fuel, mid, after);
    ExecChain(code, fl, ed, fuel, 2, last, m0, budget, 3, WhileLoop, m1, mid, 2, WhileLoop, m2, after);
  }

  /** The body of the loop, `1 - dup loop`, for counter `k`. */
  lemma {:induction false} CountdownBody(n: int, k: int, s: seq<Atom>, m: Machine, fl: FloatOps, ed: Edition, fuel: nat, budget: nat, after: nat)
    requires budget == after + 4
    ensures Exec(CountdownLinked(n), 3, WhileLoop, m.(stack := s + [Int(k)]), fl, ed, fuel, budget)
         == Exec(CountdownLinked(n), 2, WhileLoop, m.(stack := s + [Int(k - 1), Int(k - 1)]), fl, ed, fuel, after)
  {
    CountdownSub(n, k, s, m, fl, ed, fuel, budget, after + 2);
    CountdownDup(n, k - 1, s, m, fl, ed, fuel, after + 2, after);
  }

  /** A pass that the cycle cap cuts off ends the run with failure. */
  lemma {:induction false} CountdownCut(n: int, k: int, s: seq<Atom>, last: LoopKind, m: Machine, fl: FloatOps, ed: Edition, fuel: nat, budget: nat)
    requires k != 0 && budget < 5
    ensures var r := Exec(CountdownLinked(n), 2, last, m.(stack := s + [Int(k), Int(k)]), fl, ed, fuel, budget);
      r.Done? && !r.ok
  {
    WhileSteps(n, k, s, last, m, fl, ed);
    ExecStep(CountdownLinked(n), 2, last, m.(stack := s + [Int(k), Int(k)]), fl, ed, fuel, budget,
             m.(stack := s + [Int(k)]), 3, WhileLoop, false);
    if budget > 0 {
      SubCut(n, k, s, m, fl, ed, fuel, budget - 1);
    }
  }

  /** `1 -` inside the loop: the counter goes down by one. */
  lemma {:induction false} CountdownSub(n: int, k: int, s: seq<Atom>, m: Machine, fl: FloatOps, ed: Edition, fuel: nat, budget: nat, after: nat)
    requires budget == after + 2
    ensures Exec(CountdownLinked(n), 3, WhileLoop, m.(stack := s + [Int(k)]), fl, ed, fuel, budget)
         == Exec(CountdownLinked(n), 5, WhileLoop, m.(stack := s + [Int(k - 1)]), fl, ed, fuel, after)
  {
    var code := CountdownLinked(n);
    var m2 := m.(stack := s + [Int(k), Int(1)]);
    SubSteps(n, k, s, m, fl, ed);
    ExecGo(code, 3, WhileLoop, m.(stack := s + [Int(k)]), fl, ed, fuel, budget, m2, 4, WhileLoop, after + 1);
    ExecGo(code, 4, WhileLoop, m2, fl, ed, fuel, after + 1, m.(stack := s + [Int(k - 1)]), 5, WhileLoop, after);
  }

  /** The cap met between the `while` and the next one. */
  lemma {:induction false} SubCut(n: int, k: int, s: seq<Atom>, m: Machine, fl: FloatOps, ed: Edition, fuel: nat, budget: nat)
    requires budget < 4
    ensures var r := Exec(CountdownLinked(n), 3, WhileLoop, m.(stack := s + [Int(k)]), fl, ed, fuel, budget);
      r.Done? && !r.ok
  {
    var code := CountdownLinked(n);
    var m2 := m.(stack := s + [Int(k), Int(1)]);
    SubSteps(n, k, s, m, fl, ed);
    ExecStep(code, 3, WhileLoop, m.(stack := s + [Int(k)]), fl, ed, fuel, budget, m2, 4, WhileLoop, false);
    if budget > 0 {
      ExecStep(code, 4, WhileLoop, m2, fl, ed, fuel, budget - 1, m.(stack := s + [Int(k - 1)]), 5, WhileLoop, false);
      if budget > 1 {
        DupCut(n, k - 1, s, m, fl, ed, fuel, budget - 2);
      }
    }
  }

  /** `dup loop`: the counter is copied and the run goes back to the `while`. */
  lemma {:induction false} CountdownDup(n: int, j: int, s: seq<Atom>, m: Machine, fl: FloatOps, ed: Edition, fuel: nat, budget: nat, after: nat)
    requires budget == after + 2
    ensures Exec(CountdownLinked(n), 5, WhileLoop, m.(stack := s + [Int(j)]), fl, ed, fuel, budget)
         == Exec(CountdownLinked(n), 2, WhileLoop, m.(stack := s + [Int(j), Int(j)]), fl, ed, fuel, after)
  {
    var code := CountdownLinked(n);
    var m4 := m.(stack := s + [Int(j), Int(j)]);
    DupLoopSteps(n, j, s, m, fl, ed);
    ExecGo(code, 5, WhileLoop, m.(stack := s + [Int(j)]), fl, ed, fuel, budget, m4, 6, WhileLoop, after + 1);
    ExecGo(code, 6, WhileLoop, m4, fl, ed, fuel, after + 1, m4, 2, WhileLoop, after);
  }

  lemma {:induction false} DupCut(n: int, j: int, s: seq<Atom>, m: Machine, fl: FloatOps, ed: Edition, fuel: nat, budget: nat)
    requires budget < 2
    ensures var r := Exec(CountdownLinked(n), 5, WhileLoop, m.(stack := s + [Int(j)]), fl, ed, fuel, budget);
      r.Done? && !r.ok
  {
    var code := CountdownLinked(n);
    var m4 := m.(stack := s + [Int(j), Int(j)]);
    DupLoopSteps(n, j, s, m, fl, ed);
    ExecStep(code, 5, WhileLoop, m.(stack := s + [Int(j)]), fl, ed, fuel, budget, m4, 6, WhileLoop, false);
    if budget > 0 {
      ExecStep(code, 6, WhileLoop, m4, fl, ed, fuel, budget - 1, m4, 2, WhileLoop, false);
    }
  }

  /** The `while` with counter `k` on the stack: it pops the copy and goes on
      into the body when `k` is not 0, and past the `loop` when it is. */
  lemma {:induction false} WhileSteps(n: int, k: int, s: seq<Atom>, last: LoopKind, m: Machine, fl: FloatOps, ed: Edition)
    ensures Step(CountdownLinked(n), 2, last, m.(stack := s + [Int(k), Int(k)]), fl, ed)
         == Go(m.(stack := s + [Int(k)]), if k == 0 then 7 else 3, WhileLoop, false)
  {
    var m0 := m.(stack := s + [Int(k), Int(k)]);
    assert m0.stack[..|m0.stack| - 1] == s + [Int(k)];
  }

  lemma {:induction false} SubSteps(n: int, k: int, s: seq<Atom>, m: Machine, fl: FloatOps, ed: Edition)
    ensures Step(CountdownLinked(n), 3, WhileLoop, m.(stack := s + [Int(k)]), fl, ed)
         == Go(m.(stack := s + [Int(k), Int(1)]), 4, WhileLoop, false)
    ensures Step(CountdownLinked(n), 4, WhileLoop, m.(stack := s + [Int(k), Int(1)]), fl, ed)
         == Go(m.(stack := s + [Int(k - 1)]), 5, WhileLoop, false)
  {
    var m2 := m.(stack := s + [Int(k), Int(1)]);
    assert Math2(m2.stack, Sub, fl) == s + [Int(k - 1)];
  }

  lemma {:induction false} DupLoopSteps(n: int, j: int, s: seq<Atom>, m: Machine, fl: FloatOps, ed: Edition)
    ensures Step(CountdownLinked(n), 5, WhileLoop, m.(stack := s + [Int(j)]), fl, ed)
         == Go(m.(stack := s + [Int(j), Int(j)]), 6, WhileLoop, false)
    ensures Step(CountdownLinked(n), 6, WhileLoop, m.(stack := s + [Int(j), Int(j)]), fl, ed)
         == Go(m.(stack := s + [Int(j), Int(j)]), 2, WhileLoop, false)
  {
  }

  /** From the `while` with counter `k` on the stack (twice), the run
      succeeds exactly when `k` is not negative and its `k` passes of 5 atoms
      fit the budget; it then leaves the counter at 0. A negative counter
      never reaches 0 and the cap ends the run. */
  lemma {:induction false} CountdownFrom(n: int, k: int, s: seq<Atom>, last: LoopKind, m: Machine, fl: FloatOps, ed: Edition, fuel: nat, budget: nat)
    ensures var r := Exec(CountdownLinked(n), 2, last, m.(stack := s + [Int(k), Int(k)]), fl, ed, fuel, budget);
      && r.Done?
      && (r.ok <==> 0 <= k && 5 * k < budget)
      && (r.ok ==> r.m == m.(stack := s + [Int(0)]))
    decreases budget
  {
    if k == 0 {
      CountdownZero(n, k, s, last, m, fl, ed, fuel, budget);
    } else if budget >= 5 {
      var j, after := k - 1, budget - 5;
      CountdownFrom(n, j, s, WhileLoop, m, fl, ed, fuel, after);
      CountdownMore(n, k, j, s, last, m, fl, ed, fuel, budget, after);
    } else {
      CountdownCut(n, k, s, last, m, fl, ed, fuel, budget);
    }
  }

  /** A zero counter leaves the loop at once: the run ends there, and succeeds
      when the budget allows that one step. */
  lemma {:induction false} CountdownZero(n: int, k: int, s: seq<Atom>, last: LoopKind, m: Machine, fl: FloatOps, ed: Edition, fuel: nat, budget: nat)
    requires k == 0
    ensures var r := Exec(CountdownLinked(n), 2, last, m.(stack := s + [Int(k), Int(k)]), fl, ed, fuel, budget);
      && r.Done?
      && (r.ok <==> 0 < budget)
      && (r.ok ==> r.m == m.(stack := s + [Int(0)]))
  {
    var code, m0, m1 := CountdownLinked(n), m.(stack := s + [Int(k), Int(k)]), m.(stack := s + [Int(0)]);
    WhileSteps(n, k, s, last, m, fl, ed);
    ExecStep(code, 2, last, m0, fl, ed, fuel, budget, m1, 7, WhileLoop, false);
    if budget > 0 {
      ExecEnd(code, 7, WhileLoop, m1, fl, ed, fuel, budget - 1);
    }
  }

  /** A non-zero counter: one pass, then what the run from `k - 1` gives. */
  lemma {:induction false} CountdownMore(n: int, k: int, j: int, s: seq<Atom>, last: LoopKind, m: Machine, fl: FloatOps, ed: Edition, fuel: nat,
                      budget: nat, after: nat)
    requires k != 0 && j == k - 1 && budget == after + 5
    requires var r := Exec(CountdownLinked(n), 2, WhileLoop, m.(stack := s + [Int(j), Int(j)]), fl, ed, fuel, after);
      && r.Done?
      && (r.ok <==> 0 <= j && 5 * j < after)
      && (r.ok ==> r.m == m.(stack := s + [Int(0)]))
    ensures var r := Exec(CountdownLinked(n), 2, last, m.(stack := s + [Int(k), Int(k)]), fl, ed, fuel, budget);
      && r.Done?
      && (r.ok <==> 0 <= k && 5 * k < budget)
      && (r.ok ==> r.m == m.(stack := s + [Int(0)]))
  {
    CountdownPass(n, k, s, last, m, fl, ed, fuel, budget, after);
  }

  /** `n dup while 1 - dup loop` leaves 0 and succeeds exactly when `n` is
      not negative and small enough for the cycle cap; otherwise the cap
      stops it and the evaluation fails. */
  lemma {:induction false} Countdown(n: int, m: Machine, fl: FloatOps, ed: Edition, fuel: nat)
    ensures var r := Eval(CountdownCode(n), m, fl, ed, fuel);
      && r.Done?
      && (r.ok <==> 0 <= n && 5 * n < CycleCap - 2)
      && (r.ok ==> r.m == m.(stack := m.stack + [Int(0)]))
  {
    ResolveCountdown(ed, n);
    EvalResolved(CountdownCode(n), CountdownLinked(n), m, fl, ed, fuel);
    CountdownRun(n, m, fl, ed, fuel);
  }

  lemma {:induction false} CountdownRun(n: int, m: Machine, fl: FloatOps, ed: Edition, fuel: nat)
    ensures var r := Exec(CountdownLinked(n), 0, NoLoop, m, fl, ed, fuel, CycleCap);
      && r.Done?
      && (r.ok <==> 0 <= n && 5 * n < CycleCap - 2)
      && (r.ok ==> r.m == m.(stack := m.stack + [Int(0)]))
  {
    var code := CountdownLinked(n);
    var m0 := m.(stack := m.stack + [Int(n)]);
    var m1 := m.(stack := m.stack + [Int(n), Int(n)]);
    StepValue(code, 0, NoLoop, m, fl, ed);
    ExecStep(code, 0, NoLoop, m, fl, ed, fuel, CycleCap, m0, 1, NoLoop, false);
    assert Step(code, 1, NoLoop, m0, fl, ed) == Go(m1, 2, NoLoop, false);
    ExecStep(code, 1, NoLoop, m0, fl, ed, fuel, CycleCap - 1, m1, 2, NoLoop, false);
    CountdownFrom(n, n, m.stack, NoLoop, m, fl, ed, fuel, CycleCap - 2);
  }

  // return

  /** `return` ends the run: the values before it are pushed, the code after
      it never runs, and the run succeeds. */
  lemma {:induction false} ReturnEnds(pre: seq<Atom>, post: seq<Atom>, m: Machine, fl: FloatOps, ed: Edition, fuel: nat)
    requires Values(pre) && |pre| < CycleCap && NoFlow(post) && NoDefWords(post)
    ensures Eval(pre + [F(Return)] + post, m, fl, ed, fuel) == Done(m.(stack := m.stack + pre), true)
  {
    var code := pre + [F(Return)] + post;
    assert NoDefWords(code) by {
      forall i | 0 <= i < |code| ensures code[i] != DefStart && code[i] != DefEnd {
        if i < |pre| { assert IsValue(pre[i]); }
        else if i > |pre| { assert code[i] == post[i - |pre| - 1]; }
      }
    }
    PlainRun(ed, code, 0, |pre|, NoLevels);
    StepReturn(ed, code, |pre|, NoLevels);
    PlainRun(ed, code, |pre| + 1, |post|, NoLevels);
    StepEnd(ed, code, NoLevels);
    EvalResolved(code, code, m, fl, ed, fuel);
    ReturnRun(pre, post, m, fl, ed, fuel);
  }

  lemma {:induction false} ReturnRun(pre: seq<Atom>, post: seq<Atom>, m: Machine, fl: FloatOps, ed: Edition, fuel: nat)
    requires Values(pre) && |pre| < CycleCap
    ensures Exec(pre + [F(Return)] + post, 0, NoLoop, m, fl, ed, fuel, CycleCap) == Done(m.(stack := m.stack + pre), true)
  {
    var code, p, left := pre + [F(Return)] + post, |pre|, CycleCap - |pre|;
    var m1 := m.(stack := m.stack + pre);
    assert code[0..p] == pre;
    ValuesRun(code, 0, p, NoLoop, m, fl, ed, fuel, CycleCap, left);
    ReturnStep(code, p, m1, fl, ed, fuel, left);
    ExecChain(code, fl, ed, fuel, 0, NoLoop, m, CycleCap, p, NoLoop, m1, left, |code|, NoLoop, m1, left - 1);
    ExecEnd(code, |code|, NoLoop, m1, fl, ed, fuel, left - 1);
  }

  /** `return` jumps past the end of the code. */
  lemma {:induction false} ReturnStep(code: seq<Atom>, p: nat, m: Machine, fl: FloatOps, ed: Edition, fuel: nat, budget: nat)
    requires p < |code| && code[p] == F(Return) && budget > 0
    ensures Exec(code, p, NoLoop, m, fl, ed, fuel, budget) == Exec(code, |code|, NoLoop, m, fl, ed, fuel, budget - 1)
  {
    assert Step(code, p, NoLoop, m, fl, ed) == Go(m, |code|, NoLoop, false);
    ExecGo(code, p, NoLoop, m, fl, ed, fuel, budget, m, |code|, NoLoop, budget - 1);
  }
}
