/** What `eval` does with whole programs, in either edition unless a lemma
    says otherwise: values are pushed in order up to the cycle cap, symbols
    store and read back, definitions are filed and called, a failing callee
    does not stop its caller, and the three dispatch cases the source gets
    wrong are stated as written next to their corrected reading. */
module EngineFacts {
  import opened Atoms
  import opened StackOps
  import opened Definitions
  import opened Jumps
  import opened JumpFacts
  import opened Engine

  /** An atom that pushes itself: a scalar or an array. */
  predicate IsValue(a: Atom) {
    IsScalar(a) || IsArray(a)
  }

  predicate Values(code: seq<Atom>) {
    forall i :: 0 <= i < |code| ==> IsValue(code[i])
  }

  /** The atoms from `pc` up to `e` are all values. */
  predicate ValuesBetween(code: seq<Atom>, pc: nat, e: nat) {
    forall i :: pc <= i < e && i < |code| ==> IsValue(code[i])
  }

  /** A value atom pushes itself and the run goes on. */
  lemma {:induction false} StepValue(code: seq<Atom>, pc: nat, last: LoopKind, m: Machine, fl: FloatOps, ed: Edition)
    requires pc < |code| && IsValue(code[pc])
    ensures Step(code, pc, last, m, fl, ed) == Go(m.(stack := m.stack + [code[pc]]), pc + 1, last, false)
  {
  }

  /** One atom that neither calls nor stops the model. */
  lemma {:induction false} ExecStep(code: seq<Atom>, pc: nat, last: LoopKind, m: Machine, fl: FloatOps, ed: Edition, fuel: nat, budget: nat,
                 m': Machine, pc': nat, last': LoopKind, abort: bool)
    requires pc < |code| && Step(code, pc, last, m, fl, ed) == Go(m', pc', last', abort)
    ensures Exec(code, pc, last, m, fl, ed, fuel, budget)
         == if abort || budget == 0 then Finish(m') else Exec(code, pc', last', m', fl, ed, fuel, budget - 1)
  {
  }

  /** One atom that goes on, with budget left: the run continues from where
      the atom leaves it. */
  lemma {:induction false} ExecGo(code: seq<Atom>, pc: nat, last: LoopKind, m: Machine, fl: FloatOps, ed: Edition, fuel: nat, budget: nat,
               m': Machine, pc': nat, last': LoopKind, after: nat)
    requires pc < |code| && Step(code, pc, last, m, fl, ed) == Go(m', pc', last', false) && budget == after + 1
    ensures Exec(code, pc, last, m, fl, ed, fuel, budget) == Exec(code, pc', last', m', fl, ed, fuel, after)
  {
    ExecStepped(code, pc, last, m, fl, ed, fuel, m', pc', last', after);
  }

  /** The same, with the budget written as one more than what is left. */
  lemma {:induction false} ExecStepped(code: seq<Atom>, pc: nat, last: LoopKind, m: Machine, fl: FloatOps, ed: Edition, fuel: nat,
                    m': Machine, pc': nat, last': LoopKind, after: nat)
    requires pc < |code| && Step(code, pc, last, m, fl, ed) == Go(m', pc', last', false)
    ensures Exec(code, pc, last, m, fl, ed, fuel, after + 1) == Exec(code, pc', last', m', fl, ed, fuel, after)
  {
  }

  /** Two stretches of one run make one. */
  lemma {:induction false} ExecChain(code: seq<Atom>, fl: FloatOps, ed: Edition, fuel: nat,
                   pc0: nat, l0: LoopKind, m0: Machine, b0: nat, pc1: nat, l1: LoopKind, m1: Machine, b1: nat,
                   pc2: nat, l2: LoopKind, m2: Machine, b2: nat)
    requires Exec(code, pc0, l0, m0, fl, ed, fuel, b0) == Exec(code, pc1, l1, m1, fl, ed, fuel, b1)
    requires Exec(code, pc1, l1, m1, fl, ed, fuel, b1) == Exec(code, pc2, l2, m2, fl, ed, fuel, b2)
    ensures Exec(code, pc0, l0, m0, fl, ed, fuel, b0) == Exec(code, pc2, l2, m2, fl, ed, fuel, b2)
  {
  }

  lemma {:induction false} ExecEnd(code: seq<Atom>, pc: nat, last: LoopKind, m: Machine, fl: FloatOps, ed: Edition, fuel: nat, budget: nat)
    requires pc >= |code|
    ensures Exec(code, pc, last, m, fl, ed, fuel, budget) == Done(m, true)
  {
  }

  /** A call of a user function: its evaluation, whose success the caller
      ignores, then the next atom. */
  lemma {:induction false} ExecCall(code: seq<Atom>, pc: nat, last: LoopKind, m: Machine, fl: FloatOps, ed: Edition, fuel: nat, budget: nat, n: string)
    requires pc < |code| && n in m.funcs && fuel > 0 && Step(code, pc, last, m, fl, ed) == Call(n)
    ensures Exec(code, pc, last, m, fl, ed, fuel, budget)
         == match Eval(m.funcs[n], m, fl, ed, fuel - 1)
            case Stopped(why) => Stopped(why)
            case Done(m', _) => if budget == 0 then Finish(m') else Exec(code, pc + 1, last, m', fl, ed, fuel, budget - 1)
  {
  }

  /** The values from `pc` up to `e`, with a budget that covers them, are
      pushed in order; the run goes on at `e` with the budget they leave. */
  lemma {:induction false} ValuesRun(code: seq<Atom>, pc: nat, e: nat, last: LoopKind, m: Machine, fl: FloatOps, ed: Edition,
                                     fuel: nat, budget: nat, after: nat)
    requires pc <= e <= |code| && budget == after + (e - pc) && ValuesBetween(code, pc, e)
    ensures Exec(code, pc, last, m, fl, ed, fuel, budget)
         == Exec(code, e, last, m.(stack := m.stack + code[pc..e]), fl, ed, fuel, after)
    decreases e - pc
  {
    if pc == e {
      ValuesNone(code, pc, e, last, m, fl, ed, fuel, budget, after);
    } else {
      var next, left, m' := pc + 1, budget - 1, m.(stack := m.stack + [code[pc]]);
      ValuesRest(code, pc, e);
      ValuesRun(code, next, e, last, m', fl, ed, fuel, left, after);
      ValuesFirst(code, pc, next, e, last, m, m', fl, ed, fuel, budget, left, after);
    }
  }

  lemma {:induction false} ValuesNone(code: seq<Atom>, pc: nat, e: nat, last: LoopKind, m: Machine, fl: FloatOps, ed: Edition,
                                      fuel: nat, budget: nat, after: nat)
    requires pc == e <= |code| && budget == after
    ensures Exec(code, pc, last, m, fl, ed, fuel, budget)
         == Exec(code, e, last, m.(stack := m.stack + code[pc..e]), fl, ed, fuel, after)
  {
    assert m.stack + code[pc..e] == m.stack;
  }

  lemma {:induction false} ValuesRest(code: seq<Atom>, pc: nat, e: nat)
    requires pc < e && ValuesBetween(code, pc, e)
    ensures ValuesBetween(code, pc + 1, e)
  {
  }

  /** The first value of a run pushed, then the rest: the whole run. */
  lemma {:induction false} ValuesFirst(code: seq<Atom>, pc: nat, next: nat, e: nat, last: LoopKind, m: Machine, m': Machine,
                                       fl: FloatOps, ed: Edition, fuel: nat, budget: nat, left: nat, after: nat)
    requires pc < e <= |code| && next == pc + 1 && budget == left + 1 && ValuesBetween(code, pc, e)
    requires m' == m.(stack := m.stack + [code[pc]])
    requires Exec(code, next, last, m', fl, ed, fuel, left)
          == Exec(code, e, last, m'.(stack := m'.stack + code[next..e]), fl, ed, fuel, after)
    ensures Exec(code, pc, last, m, fl, ed, fuel, budget)
         == Exec(code, e, last, m.(stack := m.stack + code[pc..e]), fl, ed, fuel, after)
  {
    assert IsValue(code[pc]);
    StepValue(code, pc, last, m, fl, ed);
    ExecGo(code, pc, last, m, fl, ed, fuel, budget, m', next, last, left);
    PushedRun(m, code, pc, e);
    var r0 := Exec(code, pc, last, m, fl, ed, fuel, budget);
    var r1 := Exec(code, next, last, m', fl, ed, fuel, left);
    var r2 := Exec(code, e, last, m'.(stack := m'.stack + code[next..e]), fl, ed, fuel, after);
    var r3 := Exec(code, e, last, m.(stack := m.stack + code[pc..e]), fl, ed, fuel, after);
    assert r0 == r1 == r2 == r3;
  }

  /** Pushing one value and then the rest of a run is pushing the run. */
  lemma {:induction false} PushedRun(m: Machine, code: seq<Atom>, pc: nat, e: nat)
    requires pc < e <= |code|
    ensures var m' := m.(stack := m.stack + [code[pc]]);
      m'.(stack := m'.stack + code[pc + 1..e]) == m.(stack := m.stack + code[pc..e])
  {
    assert code[pc..e] == [code[pc]] + code[pc + 1..e];
    assert m.stack + [code[pc]] + code[pc + 1..e] == m.stack + code[pc..e];
  }

  /** Code without flow words resolves to itself. */
  lemma {:induction false} ResolvePlain(ed: Edition, code: seq<Atom>)
    requires NoFlow(code)
    ensures Resolve(ed, code) == Resolved(code)
  {
    PlainRun(ed, code, 0, |code|, NoLevels);
    StepEnd(ed, code, NoLevels);
  }

  /** When extraction succeeds and the rest resolves, evaluation is the run
      of the resolved code with the definitions filed. */
  lemma {:induction false} EvalExtracted(code: seq<Atom>, body: seq<Atom>, funcs: map<string, seq<Atom>>, c: seq<Atom>,
                      m: Machine, fl: FloatOps, ed: Edition, fuel: nat)
    requires Extract(code, m.funcs) == Extracted(body, funcs, []) && Resolve(ed, body) == Resolved(c)
    ensures Eval(code, m, fl, ed, fuel) == Exec(c, 0, NoLoop, m.(funcs := funcs), fl, ed, fuel, CycleCap)
  {
    assert m.(stack := m.stack + ErrorAtoms([]), funcs := funcs) == m.(funcs := funcs);
  }

  /** Without definitions, evaluation is the run of the resolved code. */
  lemma {:induction false} EvalResolved(code: seq<Atom>, c: seq<Atom>, m: Machine, fl: FloatOps, ed: Edition, fuel: nat)
    requires NoDefWords(code) && Resolve(ed, code) == Resolved(c)
    ensures Eval(code, m, fl, ed, fuel) == Exec(c, 0, NoLoop, m, fl, ed, fuel, CycleCap)
  {
    NoDefinitions(code, m.funcs);
    EvalExtracted(code, code, m.funcs, c, m, fl, ed, fuel);
  }

  lemma {:induction false} EvalPlain(code: seq<Atom>, m: Machine, fl: FloatOps, ed: Edition, fuel: nat)
    requires NoFlow(code) && NoDefWords(code)
    ensures Eval(code, m, fl, ed, fuel) == Exec(code, 0, NoLoop, m, fl, ed, fuel, CycleCap)
  {
    ResolvePlain(ed, code);
    EvalResolved(code, code, m, fl, ed, fuel);
  }

  /** A program of values pushes them all and succeeds when it has at most
      2500 atoms; a longer one is cut off after the 2501st, which is still
      pushed, and fails. */
  lemma {:induction false} RunValues(code: seq<Atom>, m: Machine, fl: FloatOps, ed: Edition, fuel: nat)
    requires Values(code)
    ensures |code| <= CycleCap ==> Eval(code, m, fl, ed, fuel) == Done(m.(stack := m.stack + code), true)
    ensures |code| > CycleCap ==>
      Eval(code, m, fl, ed, fuel) == Done(m.(stack := m.stack + code[..CycleCap + 1]), false)
  {
    EvalPlain(code, m, fl, ed, fuel);
    ValuesCapped(code, m, fl, ed, fuel);
  }

  lemma {:induction false} ValuesCapped(code: seq<Atom>, m: Machine, fl: FloatOps, ed: Edition, fuel: nat)
    requires Values(code)
    ensures |code| <= CycleCap ==> Exec(code, 0, NoLoop, m, fl, ed, fuel, CycleCap) == Done(m.(stack := m.stack + code), true)
    ensures |code| > CycleCap ==>
      Exec(code, 0, NoLoop, m, fl, ed, fuel, CycleCap) == Done(m.(stack := m.stack + code[..CycleCap + 1]), false)
  {
    if |code| <= CycleCap {
      ValuesRun(code, 0, |code|, NoLoop, m, fl, ed, fuel, CycleCap, CycleCap - |code|);
      ExecEnd(code, |code|, NoLoop, m.(stack := m.stack + code[0..|code|]), fl, ed, fuel, CycleCap - |code|);
      assert code[0..|code|] == code;
    } else {
      ValuesRun(code, 0, CycleCap, NoLoop, m, fl, ed, fuel, CycleCap, 0);
      var m' := m.(stack := m.stack + code[0..CycleCap]);
      StepValue(code, CycleCap, NoLoop, m', fl, ed);
      var m'' := m'.(stack := m'.stack + [code[CycleCap]]);
      ExecStep(code, CycleCap, NoLoop, m', fl, ed, fuel, 0, m'', CycleCap + 1, NoLoop, false);
      assert m''.stack == m.stack + code[..CycleCap + 1];
    }
  }

  // Symbols.

  /** A name `>name` may store under: not reserved, not a function, not
      starting with `>` or `!`. */
  predicate FreeName(n: string, m: Machine) {
    !IsReserved(n) && n !in m.funcs && !MarkedSymbol(n)
  }

  /** `>n n`: storing the top of the stack and reading it back leaves the
      stack as it was and the value filed under `n`, for every value a symbol
      can hold and be read back as. A value the edition refuses to store (a
      BOOL, as written) is popped with nothing filed; the other arrays are
      filed but cannot be read, and the read aborts. */
  lemma {:induction false} StoreThenRead(n: string, m: Machine, fl: FloatOps, ed: Edition, fuel: nat)
    requires |m.stack| > 0 && FreeName(n, m)
    ensures var v := m.stack[|m.stack| - 1]; var below := m.stack[..|m.stack| - 1];
      var r := Eval([StoreSymbol(n), Symbol(n)], m, fl, ed, fuel);
      && (Storable(v, ed) && (IsScalar(v) || v.IntArray?) ==> r == Done(m.(symbols := m.symbols[n := v]), true))
      && (Storable(v, ed) && !(IsScalar(v) || v.IntArray?) ==>
            r == Done(m.(stack := below, symbols := m.symbols[n := v]), false))
      && (!Storable(v, ed) ==> r == Done(m.(stack := below), false))
  {
    EvalPlain([StoreSymbol(n), Symbol(n)], m, fl, ed, fuel);
    var v := m.stack[|m.stack| - 1];
    if Storable(v, ed) {
      StoreReadRun(n, m, fl, ed, fuel);
    } else {
      StoreRefusedRun([StoreSymbol(n), Symbol(n)], n, m, fl, ed, fuel);
    }
  }

  /** The first step of `>n` with a free name and a value to take. */
  lemma {:induction false} StoreGoes(code: seq<Atom>, n: string, m: Machine, fl: FloatOps, ed: Edition)
    requires |code| > 0 && code[0] == StoreSymbol(n)
    requires |m.stack| > 0 && FreeName(n, m) && Storable(m.stack[|m.stack| - 1], ed)
    ensures Step(code, 0, NoLoop, m, fl, ed)
         == Go(m.(stack := m.stack[..|m.stack| - 1], symbols := m.symbols[n := m.stack[|m.stack| - 1]]), 1, NoLoop, false)
  {
  }

  /** `>n` on a value the edition cannot store ends the run with the value
      popped and nothing filed. */
  lemma {:induction false} StoreRefusedRun(code: seq<Atom>, n: string, m: Machine, fl: FloatOps, ed: Edition, fuel: nat)
    requires |code| > 0 && code[0] == StoreSymbol(n)
    requires |m.stack| > 0 && FreeName(n, m) && !Storable(m.stack[|m.stack| - 1], ed)
    ensures Exec(code, 0, NoLoop, m, fl, ed, fuel, CycleCap) == Done(m.(stack := m.stack[..|m.stack| - 1]), false)
  {
    var m1 := m.(stack := m.stack[..|m.stack| - 1] + [Error("Symdef-invalid-type")]);
    assert Step(code, 0, NoLoop, m, fl, ed) == Go(m1, 1, NoLoop, true);
    ExecStep(code, 0, NoLoop, m, fl, ed, fuel, CycleCap, m1, 1, NoLoop, true);
  }

  lemma {:induction false} StoreReadRun(n: string, m: Machine, fl: FloatOps, ed: Edition, fuel: nat)
    requires |m.stack| > 0 && FreeName(n, m) && Storable(m.stack[|m.stack| - 1], ed)
    ensures var v := m.stack[|m.stack| - 1];
      var r := Exec([StoreSymbol(n), Symbol(n)], 0, NoLoop, m, fl, ed, fuel, CycleCap);
      && ((IsScalar(v) || v.IntArray?) ==> r == Done(m.(symbols := m.symbols[n := v]), true))
      && (!(IsScalar(v) || v.IntArray?) ==> r == Done(m.(stack := m.stack[..|m.stack| - 1], symbols := m.symbols[n := v]), false))
  {
    var code := [StoreSymbol(n), Symbol(n)];
    var v := m.stack[|m.stack| - 1];
    var m1 := m.(stack := m.stack[..|m.stack| - 1], symbols := m.symbols[n := v]);
    StoreGoes(code, n, m, fl, ed);
    ExecStep(code, 0, NoLoop, m, fl, ed, fuel, CycleCap, m1, 1, NoLoop, false);
    var r := ReadSymbol(v, ed);
    assert r == v || r.Error? by {
      if !r.Error? { assert !v.Bool? || ed == Corrected; }
    }
    var m2 := m1.(stack := m1.stack + [r]);
    assert Step(code, 1, NoLoop, m1, fl, ed) == Go(m2, 2, NoLoop, r.Error?);
    ExecStep(code, 1, NoLoop, m1, fl, ed, fuel, CycleCap - 1, m2, 2, NoLoop, r.Error?);
    if !r.Error? {
      ExecEnd(code, 2, NoLoop, m2, fl, ed, fuel, CycleCap - 2);
      assert m1.stack + [v] == m.stack;
    }
  }

  /** `>n !n`: a symbol stored and deleted again leaves the table as it was
      when `n` was not a symbol before; the value is popped either way, and
      the run succeeds exactly when the value could be stored. */
  lemma {:induction false} StoreThenDelete(n: string, m: Machine, fl: FloatOps, ed: Edition, fuel: nat)
    requires |m.stack| > 0 && FreeName(n, m) && n !in m.symbols
    ensures Eval([StoreSymbol(n), DeleteSymbol(n)], m, fl, ed, fuel)
         == Done(m.(stack := m.stack[..|m.stack| - 1]), Storable(m.stack[|m.stack| - 1], ed))
  {
    EvalPlain([StoreSymbol(n), DeleteSymbol(n)], m, fl, ed, fuel);
    if Storable(m.stack[|m.stack| - 1], ed) {
      StoreDeleteRun(n, m, fl, ed, fuel);
    } else {
      StoreRefusedRun([StoreSymbol(n), DeleteSymbol(n)], n, m, fl, ed, fuel);
    }
  }

  lemma {:induction false} StoreDeleteRun(n: string, m: Machine, fl: FloatOps, ed: Edition, fuel: nat)
    requires |m.stack| > 0 && FreeName(n, m) && n !in m.symbols && Storable(m.stack[|m.stack| - 1], ed)
    ensures Exec([StoreSymbol(n), DeleteSymbol(n)], 0, NoLoop, m, fl, ed, fuel, CycleCap)
         == Done(m.(stack := m.stack[..|m.stack| - 1]), true)
  {
    var code := [StoreSymbol(n), DeleteSymbol(n)];
    var v := m.stack[|m.stack| - 1];
    var m1 := m.(stack := m.stack[..|m.stack| - 1], symbols := m.symbols[n := v]);
    StoreGoes(code, n, m, fl, ed);
    ExecStep(code, 0, NoLoop, m, fl, ed, fuel, CycleCap, m1, 1, NoLoop, false);
    var m2 := m.(stack := m.stack[..|m.stack| - 1]);
    assert m1.symbols - {n} == m.symbols;
    assert Step(code, 1, NoLoop, m1, fl, ed) == Go(m2, 2, NoLoop, false);
    ExecStep(code, 1, NoLoop, m1, fl, ed, fuel, CycleCap - 1, m2, 2, NoLoop, false);
    ExecEnd(code, 2, NoLoop, m2, fl, ed, fuel, CycleCap - 2);
  }

  /** Every failure of `>n` pushes its error and aborts; with the error
      popped at the end, the stack is left without the value when the value
      was taken, and as it was otherwise. */
  lemma {:induction false} StoreRejected(n: string, m: Machine, fl: FloatOps, ed: Edition, fuel: nat)
    requires !FreeName(n, m) || |m.stack| == 0 || !Storable(m.stack[|m.stack| - 1], ed)
    ensures var st := m.stack;
      && ((IsReserved(n) || n in m.funcs || |st| == 0) ==> Eval([StoreSymbol(n)], m, fl, ed, fuel) == Done(m, false))
      && (!(IsReserved(n) || n in m.funcs || |st| == 0) ==>
        Eval([StoreSymbol(n)], m, fl, ed, fuel) == Done(m.(stack := st[..|st| - 1]), false))
  {
    EvalPlain([StoreSymbol(n)], m, fl, ed, fuel);
    StoreRejectedRun(n, m, fl, ed, fuel);
  }

  lemma {:induction false} StoreRejectedRun(n: string, m: Machine, fl: FloatOps, ed: Edition, fuel: nat)
    requires !FreeName(n, m) || |m.stack| == 0 || !Storable(m.stack[|m.stack| - 1], ed)
    ensures var st := m.stack; var r := Exec([StoreSymbol(n)], 0, NoLoop, m, fl, ed, fuel, CycleCap);
      && ((IsReserved(n) || n in m.funcs || |st| == 0) ==> r == Done(m, false))
      && (!(IsReserved(n) || n in m.funcs || |st| == 0) ==> r == Done(m.(stack := st[..|st| - 1]), false))
  {
    var code := [StoreSymbol(n)];
    var s := StoreStep(n, 0, NoLoop, m, ed);
    StoreFails(n, m, ed);
    assert Step(code, 0, NoLoop, m, fl, ed) == s;
    ExecStep(code, 0, NoLoop, m, fl, ed, fuel, CycleCap, s.m, 1, NoLoop, true);
  }

  /** The step of a rejected `>n`: its error on top of what is kept, and an
      abort. */
  lemma {:induction false} StoreFails(n: string, m: Machine, ed: Edition)
    requires !FreeName(n, m) || |m.stack| == 0 || !Storable(m.stack[|m.stack| - 1], ed)
    ensures var st := m.stack; var s := StoreStep(n, 0, NoLoop, m, ed);
      && s.Go? && s.abort && s.pc == 1 && s.last == NoLoop
      && TopIsError(s.m.stack) && s.m.symbols == m.symbols && s.m.funcs == m.funcs
      && Below(s.m.stack) == if IsReserved(n) || n in m.funcs || |st| == 0 then st else st[..|st| - 1]
  {
  }

  /** `!n` on a function removes it. Corrected, that is all it does. As
      written, the word goes on to read `n` as a symbol: with no symbol `n`
      the run aborts on the undefined reference (its error is popped), and
      with one its value is pushed, or the run aborts when the value cannot
      be read back. */
  lemma {:induction false} DeleteFunction(n: string, m: Machine, fl: FloatOps, ed: Edition, fuel: nat)
    requires n in m.funcs
    ensures var m' := m.(funcs := m.funcs - {n}); var r := Eval([DeleteFunc(n)], m, fl, ed, fuel);
      && (ed == Corrected ==> r == Done(m', true))
      && (ed == AsWritten && n !in m.symbols ==> r == Done(m', false))
      && (ed == AsWritten && n in m.symbols ==>
            var v := ReadSymbol(m.symbols[n], AsWritten);
            r == Done(m'.(stack := if v.Error? then m.stack else m.stack + [v]), !v.Error?))
  {
    EvalPlain([DeleteFunc(n)], m, fl, ed, fuel);
    DeleteRun(n, m, fl, ed, fuel);
  }

  lemma {:induction false} DeleteRun(n: string, m: Machine, fl: FloatOps, ed: Edition, fuel: nat)
    requires n in m.funcs
    ensures var m' := m.(funcs := m.funcs - {n}); var r := Exec([DeleteFunc(n)], 0, NoLoop, m, fl, ed, fuel, CycleCap);
      && (ed == Corrected ==> r == Done(m', true))
      && (ed == AsWritten && n !in m.symbols ==> r == Done(m', false))
      && (ed == AsWritten && n in m.symbols ==>
            var v := ReadSymbol(m.symbols[n], AsWritten);
            r == Done(m'.(stack := if v.Error? then m.stack else m.stack + [v]), !v.Error?))
  {
    var code := [DeleteFunc(n)];
    var m1 := m.(funcs := m.funcs - {n});
    if ed == Corrected {
      ExecStep(code, 0, NoLoop, m, fl, ed, fuel, CycleCap, m1, 1, NoLoop, false);
      ExecEnd(code, 1, NoLoop, m1, fl, ed, fuel, CycleCap - 1);
    } else if n !in m.symbols {
      var m2 := Push(m1, Error("Undefined-symbol-reference: <" + n + ">"));
      assert Step(code, 0, NoLoop, m, fl, ed) == Go(m2, 1, NoLoop, true);
      ExecStep(code, 0, NoLoop, m, fl, ed, fuel, CycleCap, m2, 1, NoLoop, true);
    } else {
      var v := ReadSymbol(m.symbols[n], AsWritten);
      var m2 := Push(m1, v);
      assert Step(code, 0, NoLoop, m, fl, ed) == Go(m2, 1, NoLoop, v.Error?);
      ExecStep(code, 0, NoLoop, m, fl, ed, fuel, CycleCap, m2, 1, NoLoop, v.Error?);
      if !v.Error? {
        ExecEnd(code, 1, NoLoop, m2, fl, ed, fuel, CycleCap - 1);
      }
    }
  }

  /** A function defined on one line and deleted on the next: the first
      line files it; the second removes it again, which leaves the function
      table as it was when `n` was no function and no symbol before. As
      written, the second line then fails on the symbol `n` it goes on to
      read; corrected, it succeeds. */
  lemma {:induction false} DefineThenDelete(n: string, def: seq<Atom>, m: Machine, fl: FloatOps, ed: Edition, fuel: nat)
    requires NoDefWords(def) && |def| > 0 && !IsReserved(n) && !MarkedName(n) && n !in m.funcs && n !in m.symbols
    ensures Eval([DefStart, Symbol(n)] + def + [DefEnd], m, fl, ed, fuel) == Done(m.(funcs := m.funcs[n := def]), true)
    ensures Eval([DeleteFunc(n)], m.(funcs := m.funcs[n := def]), fl, ed, fuel) == Done(m, ed == Corrected)
  {
    DefineLine(n, def, m, fl, ed, fuel);
    var m1 := m.(funcs := m.funcs[n := def]);
    DeleteFunction(n, m1, fl, ed, fuel);
    assert m1.funcs - {n} == m.funcs;
  }

  /** `: n def ;` alone files the definition and runs nothing. */
  lemma {:induction false} DefineLine(n: string, def: seq<Atom>, m: Machine, fl: FloatOps, ed: Edition, fuel: nat)
    requires NoDefWords(def) && |def| > 0 && !IsReserved(n) && !MarkedName(n)
    ensures Eval([DefStart, Symbol(n)] + def + [DefEnd], m, fl, ed, fuel) == Done(m.(funcs := m.funcs[n := def]), true)
  {
    var code := [DefStart, Symbol(n)] + def + [DefEnd];
    assert code == [] + [DefStart, Symbol(n)] + def + [DefEnd] + [];
    OneDefinition([], n, def, [], m.funcs);
    ResolvePlain(ed, []);
    EvalExtracted(code, [], m.funcs[n := def], [], m, fl, ed, fuel);
    ExecEnd([], 0, NoLoop, m.(funcs := m.funcs[n := def]), fl, ed, fuel, CycleCap);
  }

  // The three dispatch cases read as written.

  /** As written, `!f` falls through into reading `f` as a symbol: when a
      symbol `f` exists, its value is pushed after the function is deleted. */
  lemma {:induction false} DeleteFuncReadsSymbol(m: Machine, fl: FloatOps)
    requires m.funcs == map["f" := [Int(1)]] && m.symbols == map["f" := Int(42)]
    ensures Step([DeleteFunc("f")], 0, NoLoop, m, fl, AsWritten)
         == Go(Machine(m.stack + [Int(42)], m.symbols, map[]), 1, NoLoop, false)
    ensures Step([DeleteFunc("f")], 0, NoLoop, m, fl, Corrected)
         == Go(Machine(m.stack, m.symbols, map[]), 1, NoLoop, false)
  {
    assert m.funcs - {"f"} == map[];
  }

  /** As written, `!f` with no symbol `f` deletes the function and then
      aborts on the undefined symbol it goes on to read. */
  lemma {:induction false} DeleteFuncAborts(n: string, m: Machine, fl: FloatOps)
    requires n in m.funcs && n !in m.symbols
    ensures Step([DeleteFunc(n)], 0, NoLoop, m, fl, AsWritten)
         == Go(m.(stack := m.stack + [Error("Undefined-symbol-reference: <" + n + ">")], funcs := m.funcs - {n}), 1, NoLoop, true)
  {
  }

  /** As written, a BOOL cannot be stored: `>x` with `true` or `false` on
      top fails with an invalid-type error. */
  lemma {:induction false} StoreBoolRejected(n: string, b: bool, m: Machine, fl: FloatOps)
    requires FreeName(n, m) && |m.stack| > 0 && m.stack[|m.stack| - 1] == Bool(b)
    ensures Step([StoreSymbol(n)], 0, NoLoop, m, fl, AsWritten)
         == Go(m.(stack := m.stack[..|m.stack| - 1] + [Error("Symdef-invalid-type")]), 1, NoLoop, true)
  {
  }

  /** As written, a symbol holding `false` reads back as `true`. */
  lemma {:induction false} ReadFalseAsTrue(n: string, m: Machine, fl: FloatOps)
    requires n in m.symbols && m.symbols[n] == Bool(false)
    ensures Step([Symbol(n)], 0, NoLoop, m, fl, AsWritten) == Go(m.(stack := m.stack + [Bool(true)]), 1, NoLoop, false)
    ensures Step([Symbol(n)], 0, NoLoop, m, fl, Corrected) == Go(m.(stack := m.stack + [Bool(false)]), 1, NoLoop, false)
  {
  }

  // Definitions and calls.

  /** `: n def ; n`: a function defined in a program can be called later in
      the same program (the reference was read as a symbol, since `n` was no
      function when the line was parsed); its values are pushed. */
  lemma {:induction false} DefineThenCall(n: string, def: seq<Atom>, m: Machine, fl: FloatOps, ed: Edition, fuel: nat)
    requires Values(def) && 0 < |def| <= CycleCap && !IsReserved(n) && !MarkedName(n) && n !in m.symbols && fuel > 0
    ensures Eval([DefStart, Symbol(n)] + def + [DefEnd, Symbol(n)], m, fl, ed, fuel)
         == Done(Machine(m.stack + def, m.symbols, m.funcs[n := def]), true)
  {
    var code := [DefStart, Symbol(n)] + def + [DefEnd, Symbol(n)];
    assert code == [] + [DefStart, Symbol(n)] + def + [DefEnd] + [Symbol(n)];
    assert NoDefWords(def) by {
      forall i | 0 <= i < |def| ensures def[i] != DefStart && def[i] != DefEnd {
        assert IsValue(def[i]);
      }
    }
    OneDefinition([], n, def, [Symbol(n)], m.funcs);
    assert [] + [Symbol(n)] == [Symbol(n)];
    ResolvePlain(ed, [Symbol(n)]);
    var m1 := m.(funcs := m.funcs[n := def]);
    EvalExtracted(code, [Symbol(n)], m1.funcs, [Symbol(n)], m, fl, ed, fuel);
    CallValues(n, m1, fl, ed, fuel);
  }

  lemma {:induction false} CallValues(n: string, m: Machine, fl: FloatOps, ed: Edition, fuel: nat)
    requires n !in m.symbols && n in m.funcs && Values(m.funcs[n]) && |m.funcs[n]| <= CycleCap && fuel > 0
    ensures Exec([Symbol(n)], 0, NoLoop, m, fl, ed, fuel, CycleCap) == Done(m.(stack := m.stack + m.funcs[n]), true)
  {
    RunValues(m.funcs[n], m, fl, ed, fuel - 1);
    ExecCall([Symbol(n)], 0, NoLoop, m, fl, ed, fuel, CycleCap, n);
    ExecEnd([Symbol(n)], 1, NoLoop, m.(stack := m.stack + m.funcs[n]), fl, ed, fuel, CycleCap - 1);
  }

  /** A caller ignores whether the function it calls fails: the values after
      the call are pushed on whatever the call left, and the caller
      succeeds. */
  lemma {:induction false} CallerGoesOn(n: string, post: seq<Atom>, m: Machine, fl: FloatOps, ed: Edition, fuel: nat)
    requires n in m.funcs && fuel > 0 && Values(post) && |post| < CycleCap
    requires Eval(m.funcs[n], m, fl, ed, fuel - 1).Done?
    ensures var callee := Eval(m.funcs[n], m, fl, ed, fuel - 1);
      Eval([Func(n)] + post, m, fl, ed, fuel) == Done(callee.m.(stack := callee.m.stack + post), true)
  {
    var code := [Func(n)] + post;
    assert NoFlow(code) && NoDefWords(code) by {
      forall i | 0 <= i < |code| ensures !code[i].Flow? && code[i] != DefStart && code[i] != DefEnd {
        if i > 0 { assert IsValue(post[i - 1]); }
      }
    }
    EvalPlain(code, m, fl, ed, fuel);
    CallThenValuesRun(n, post, m, fl, ed, fuel);
  }

  lemma {:induction false} CallThenValuesRun(n: string, post: seq<Atom>, m: Machine, fl: FloatOps, ed: Edition, fuel: nat)
    requires n in m.funcs && fuel > 0 && Values(post) && |post| < CycleCap
    requires Eval(m.funcs[n], m, fl, ed, fuel - 1).Done?
    ensures var callee := Eval(m.funcs[n], m, fl, ed, fuel - 1);
      Exec([Func(n)] + post, 0, NoLoop, m, fl, ed, fuel, CycleCap) == Done(callee.m.(stack := callee.m.stack + post), true)
  {
    var code := [Func(n)] + post;
    var m' := Eval(m.funcs[n], m, fl, ed, fuel - 1).m;
    ExecCall(code, 0, NoLoop, m, fl, ed, fuel, CycleCap, n);
    assert code[1..] == post;
    ValuesRun(code, 1, |code|, NoLoop, m', fl, ed, fuel, CycleCap - 1, CycleCap - 1 - |post|);
    ExecEnd(code, |code|, NoLoop, m'.(stack := m'.stack + code[1..]), fl, ed, fuel, CycleCap - 1 - |post|);
  }

  /** `f x` with `f` defined as `+`: the call fails on the empty stack (its
      error is popped when it ends), and the caller still pushes `x` and
      succeeds. */
  lemma {:induction false} FailingCallee(f: string, x: int, m: Machine, fl: FloatOps, ed: Edition, fuel: nat)
    requires m.stack == [] && f in m.funcs && m.funcs[f] == [Builtin(Math(Add), "+")] && fuel > 0
    ensures Eval([Func(f)] + [Int(x)], m, fl, ed, fuel) == Done(m.(stack := [Int(x)]), true)
  {
    var post, rest := [Int(x)], fuel - 1;
    CalleeFails(f, m, fl, ed, fuel, rest);
    OneValue(Int(x));
    CallerGoesOn(f, post, m, fl, ed, fuel);
    assert m.(stack := m.stack + post) == m.(stack := [Int(x)]);
  }

  /** The callee `+` fails on the empty stack and leaves the machine as it was. */
  lemma {:induction false} CalleeFails(f: string, m: Machine, fl: FloatOps, ed: Edition, fuel: nat, rest: nat)
    requires m.stack == [] && f in m.funcs && m.funcs[f] == [Builtin(Math(Add), "+")] && fuel > 0 && rest == fuel - 1
    ensures Eval(m.funcs[f], m, fl, ed, fuel - 1) == Done(m, false)
  {
    AddOnEmpty(m, fl, ed, rest);
  }

  lemma {:induction false} OneValue(a: Atom)
    requires IsValue(a)
    ensures Values([a])
  {
  }

  lemma {:induction false} AddOnEmpty(m: Machine, fl: FloatOps, ed: Edition, fuel: nat)
    requires m.stack == []
    ensures Eval([Builtin(Math(Add), "+")], m, fl, ed, fuel) == Done(m, false)
  {
    var body := [Builtin(Math(Add), "+")];
    EvalPlain(body, m, fl, ed, fuel);
    AddOnEmptyRun(m, fl, ed, fuel);
  }

  lemma {:induction false} AddOnEmptyRun(m: Machine, fl: FloatOps, ed: Edition, fuel: nat)
    requires m.stack == []
    ensures Exec([Builtin(Math(Add), "+")], 0, NoLoop, m, fl, ed, fuel, CycleCap) == Done(m, false)
  {
    var body := [Builtin(Math(Add), "+")];
    var m1 := m.(stack := [Error("Math-" + MathSymbol(Add) + "-Not-Enough-Operands")]);
    assert Step(body, 0, NoLoop, m, fl, ed) == Go(m1, 1, NoLoop, true);
    ExecStep(body, 0, NoLoop, m, fl, ed, fuel, CycleCap, m1, 1, NoLoop, true);
  }

  /** A call of a function that does not exist (it was deleted after the
      line was parsed) aborts without pushing an error of its own. */
  lemma {:induction false} MissingFunction(n: string, m: Machine, fl: FloatOps, ed: Edition, fuel: nat)
    requires n !in m.funcs
    ensures Eval([Func(n)], m, fl, ed, fuel) == Finish(m)
    ensures !TopIsError(m.stack) ==> Eval([Func(n)], m, fl, ed, fuel) == Done(m, false)
  {
    EvalPlain([Func(n)], m, fl, ed, fuel);
    ExecStep([Func(n)], 0, NoLoop, m, fl, ed, fuel, CycleCap, m, 1, NoLoop, true);
  }

  /** A `:` inside a definition: the pass stops, the nesting error stays on
      the stack below the missing-`;` error, which is popped. */
  lemma {:induction false} NestedDefinitionLeft(pre: seq<Atom>, def: seq<Atom>, post: seq<Atom>, m: Machine, fl: FloatOps, ed: Edition, fuel: nat)
    requires NoDefWords(pre) && NoDefWords(def)
    ensures var r := Eval(pre + [DefStart] + def + [DefStart] + post, m, fl, ed, fuel);
      r.Done? && !r.ok && r.m.stack == m.stack + [Error("Nested-Def-Illegal")] && r.m.symbols == m.symbols
  {
    NestedDefinition(pre, def, post, m.funcs);
    var errs := ErrorAtoms(["Nested-Def-Illegal", "Unterminated-func-def"]);
    assert errs == [Error("Nested-Def-Illegal"), Error("Unterminated-func-def")];
    assert (m.stack + errs)[..|m.stack| + 1] == m.stack + [Error("Nested-Def-Illegal")];
  }

  /** A `:` never closed: nothing is defined or run, and the stack is left
      as it was. */
  lemma {:induction false} UnterminatedLeft(pre: seq<Atom>, def: seq<Atom>, m: Machine, fl: FloatOps, ed: Edition, fuel: nat)
    requires NoDefWords(pre) && NoDefWords(def)
    ensures Eval(pre + [DefStart] + def, m, fl, ed, fuel) == Done(m, false)
  {
    UnterminatedDefinition(pre, def, m.funcs);
    assert ErrorAtoms(["Unterminated-func-def"]) == [Error("Unterminated-func-def")];
    assert (m.stack + [Error("Unterminated-func-def")])[..|m.stack|] == m.stack;
  }

  /** A program whose jumps do not resolve runs nothing: its error is pushed
      and popped, and the machine is left as it was. */
  lemma {:induction false} UnresolvedLeft(code: seq<Atom>, m: Machine, fl: FloatOps, ed: Edition, fuel: nat)
    requires NoDefWords(code) && Resolve(ed, code).Unresolved?
    ensures Eval(code, m, fl, ed, fuel) == Done(m, false)
  {
    NoDefinitions(code, m.funcs);
    assert m.(stack := m.stack + ErrorAtoms([]), funcs := m.funcs) == m;
    assert (m.stack + [Error(Resolve(ed, code).msg)])[..|m.stack|] == m.stack;
  }
}
