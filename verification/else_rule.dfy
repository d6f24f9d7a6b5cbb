/** The source's rule for accepting `else` against the corrected one. The
    source compares the number of open `if`s with the number of `else`s ever
    recorded, and `endif` never removes a record, so a second `if`/`else`
    block in one program, or an `if`/`else` nested in the first branch of
    another `if`, is rejected. */
module ElseRuleFacts {
  import opened Atoms
  import opened Jumps
  import opened JumpFacts

  function F(w: FlowWord): Atom {
    Flow(w, None)
  }

  /** `1 if 2 else 3 endif 1 if 4 else 5 endif` */
  const TwoBlocks: seq<Atom> :=
    [Int(1), F(If), Int(2), F(Else), Int(3), F(Endif), Int(1), F(If), Int(4), F(Else), Int(5), F(Endif)]

  /** `1 if 1 if 2 else 3 endif endif` */
  const NestedBlock: seq<Atom> :=
    [Int(1), F(If), Int(1), F(If), Int(2), F(Else), Int(3), F(Endif), F(Endif)]

  /** The first block resolves the same way under either rule, leaving its
      `if` recorded as having met an `else`. */
  lemma {:induction false} FirstBlock(r: Edition)
    ensures ResolveFrom(r, TwoBlocks, 0, NoLevels) == ResolveFrom(r, AfterFirst, 6, Levels([], [], [1], [], NoLoop))
  {
    FirstIf(r);
    FirstElse(r);
    FirstEndif(r);
  }

  /** `1 if`: the `if` is opened with address 0. */
  lemma {:induction false} FirstIf(r: Edition)
    ensures ResolveFrom(r, TwoBlocks, 0, NoLevels) == ResolveFrom(r, FirstOpen, 2, Levels([], [1], [], [], NoLoop))
  {
    StepPlain(r, TwoBlocks, 0, NoLevels);
    StepOpen(r, TwoBlocks, 1, NoLevels);
    assert NoLevels.(ifs := NoLevels.ifs + [1]) == Levels([], [1], [], [], NoLoop);
    FirstOpenJumps();
  }

  lemma {:induction false} FirstOpenJumps()
    ensures SetJump(TwoBlocks, 1, 0) == FirstOpen
  {
  }

  const FirstOpen: seq<Atom> :=
    [Int(1), Flow(If, Some(0)), Int(2), F(Else), Int(3), F(Endif), Int(1), F(If), Int(4), F(Else), Int(5), F(Endif)]

  /** `2 else`: the `if` jumps to the `else`, which is recorded. */
  lemma {:induction false} FirstElse(r: Edition)
    ensures ResolveFrom(r, FirstOpen, 2, Levels([], [1], [], [], NoLoop))
         == ResolveFrom(r, FirstElsed, 4, Levels([], [1], [1], [], NoLoop))
  {
    var l1 := Levels([], [1], [], [], NoLoop);
    StepPlain(r, FirstOpen, 2, l1);
    assert JumpOf(FirstOpen, 1) == 0;
    assert ElseAllowed(r, FirstOpen, l1);
    StepElse(r, FirstOpen, 3, l1);
    assert Top(l1.ifs) == 1;
    assert l1.(elses := l1.elses + [1]) == Levels([], [1], [1], [], NoLoop);
    FirstElsedJumps();
  }

  lemma {:induction false} FirstElsedJumps()
    ensures SetJump(FirstOpen, 1, 3) == FirstElsed
  {
  }

  const FirstElsed: seq<Atom> :=
    [Int(1), Flow(If, Some(3)), Int(2), F(Else), Int(3), F(Endif), Int(1), F(If), Int(4), F(Else), Int(5), F(Endif)]

  /** `3 endif`: the `else` jumps to the `endif` and the `if` is closed. */
  lemma {:induction false} FirstEndif(r: Edition)
    ensures ResolveFrom(r, FirstElsed, 4, Levels([], [1], [1], [], NoLoop))
         == ResolveFrom(r, AfterFirst, 6, Levels([], [], [1], [], NoLoop))
  {
    var l3 := Levels([], [1], [1], [], NoLoop);
    StepPlain(r, FirstElsed, 4, l3);
    StepEndif(r, FirstElsed, 5, l3);
    AfterFirstJumps();
  }

  const AfterFirst: seq<Atom> :=
    [Int(1), Flow(If, Some(3)), Int(2), Flow(Else, Some(5)), Int(3), F(Endif),
     Int(1), F(If), Int(4), F(Else), Int(5), F(Endif)]

  lemma {:induction false} AfterFirstJumps()
    ensures SetJump(FirstElsed, 3, 5) == AfterFirst
  {
  }

  /** `1 if` of the second block: its `if` is opened with address 0. */
  lemma {:induction false} SecondIf(r: Edition)
    ensures ResolveFrom(r, AfterFirst, 6, Levels([], [], [1], [], NoLoop))
         == ResolveFrom(r, SecondOpen, 8, Levels([], [7], [1], [], NoLoop))
  {
    var l5 := Levels([], [], [1], [], NoLoop);
    StepPlain(r, AfterFirst, 6, l5);
    StepOpen(r, AfterFirst, 7, l5);
    assert l5.(ifs := l5.ifs + [7]) == Levels([], [7], [1], [], NoLoop);
    SecondOpenJumps();
  }

  const SecondOpen: seq<Atom> :=
    [Int(1), Flow(If, Some(3)), Int(2), Flow(Else, Some(5)), Int(3), F(Endif),
     Int(1), Flow(If, Some(0)), Int(4), F(Else), Int(5), F(Endif)]

  lemma {:induction false} SecondOpenJumps()
    ensures SetJump(AfterFirst, 7, 0) == SecondOpen
  {
  }

  /** As written, the second block's `else` is refused: one `if` is open and
      one `else` is still on record from the first block. */
  lemma {:induction false} SecondIfElseRejected()
    ensures Resolve(AsWritten, TwoBlocks) == Unresolved("Unexpected 'else' statement!")
  {
    var r := AsWritten;
    FirstBlock(r);
    SecondIf(r);
    var l7 := Levels([], [7], [1], [], NoLoop);
    StepPlain(r, SecondOpen, 8, l7);
    assert !ElseAllowed(r, SecondOpen, l7);
    StepElse(r, SecondOpen, 9, l7);
  }

  /** With the corrected rule both blocks resolve, each `if` jumping to its
      own `else` and each `else` to its own `endif`. */
  lemma {:induction false} SecondIfElseResolved()
    ensures Resolve(Corrected, TwoBlocks) == Resolved(TwoResolved)
  {
    FirstBlock(Corrected);
    SecondIf(Corrected);
    SecondElse();
    SecondEndif();
  }

  const TwoResolved: seq<Atom> :=
    [Int(1), Flow(If, Some(3)), Int(2), Flow(Else, Some(5)), Int(3), F(Endif),
     Int(1), Flow(If, Some(9)), Int(4), Flow(Else, Some(11)), Int(5), F(Endif)]

  lemma {:induction false} TwoResolvedJumps()
    ensures SetJump(SecondElsed, 9, 11) == TwoResolved
  {
  }

  /** `4 else` under the corrected rule: the innermost `if` has no `else` yet. */
  lemma {:induction false} SecondElse()
    ensures ResolveFrom(Corrected, SecondOpen, 8, Levels([], [7], [1], [], NoLoop))
         == ResolveFrom(Corrected, SecondElsed, 10, Levels([], [7], [1, 7], [], NoLoop))
  {
    var r := Corrected;
    var l7 := Levels([], [7], [1], [], NoLoop);
    StepPlain(r, SecondOpen, 8, l7);
    assert JumpOf(SecondOpen, 7) == 0;
    assert ElseAllowed(r, SecondOpen, l7);
    StepElse(r, SecondOpen, 9, l7);
    assert Top(l7.ifs) == 7;
    assert l7.(elses := l7.elses + [7]) == Levels([], [7], [1, 7], [], NoLoop);
    SecondElsedJumps();
  }

  const SecondElsed: seq<Atom> :=
    [Int(1), Flow(If, Some(3)), Int(2), Flow(Else, Some(5)), Int(3), F(Endif),
     Int(1), Flow(If, Some(9)), Int(4), F(Else), Int(5), F(Endif)]

  lemma {:induction false} SecondElsedJumps()
    ensures SetJump(SecondOpen, 7, 9) == SecondElsed
  {
  }

  /** `5 endif` and the end: the `else` jumps to the `endif`. */
  lemma {:induction false} SecondEndif()
    ensures ResolveFrom(Corrected, SecondElsed, 10, Levels([], [7], [1, 7], [], NoLoop)) == Resolved(TwoResolved)
  {
    var r := Corrected;
    var l9 := Levels([], [7], [1, 7], [], NoLoop);
    StepPlain(r, SecondElsed, 10, l9);
    assert JumpOf(SecondElsed, 7) == 9;
    StepEndif(r, SecondElsed, 11, l9);
    TwoResolvedJumps();
    assert l9.(ifs := Pop(l9.ifs)) == Levels([], [], [1, 7], [], NoLoop);
    StepEnd(r, TwoResolved, Levels([], [], [1, 7], [], NoLoop));
  }

  /** Both `if`s open, under either rule. */
  lemma {:induction false} NestedPrefix(r: Edition)
    ensures ResolveFrom(r, NestedBlock, 0, NoLevels) == ResolveFrom(r, BothOpen, 5, Levels([], [1, 3], [], [], NoLoop))
  {
    OuterIf(r);
    InnerIf(r);
  }

  /** `1 if`: the outer `if` is opened with address 0. */
  lemma {:induction false} OuterIf(r: Edition)
    ensures ResolveFrom(r, NestedBlock, 0, NoLevels) == ResolveFrom(r, OuterOpen, 2, Levels([], [1], [], [], NoLoop))
  {
    StepPlain(r, NestedBlock, 0, NoLevels);
    StepOpen(r, NestedBlock, 1, NoLevels);
    assert NoLevels.(ifs := NoLevels.ifs + [1]) == Levels([], [1], [], [], NoLoop);
    OuterOpenJumps();
  }

  const OuterOpen: seq<Atom> :=
    [Int(1), Flow(If, Some(0)), Int(1), F(If), Int(2), F(Else), Int(3), F(Endif), F(Endif)]

  lemma {:induction false} OuterOpenJumps()
    ensures SetJump(NestedBlock, 1, 0) == OuterOpen
  {
  }

  /** `1 if 2`: the inner `if` is opened with address 0 as well. */
  lemma {:induction false} InnerIf(r: Edition)
    ensures ResolveFrom(r, OuterOpen, 2, Levels([], [1], [], [], NoLoop)) == ResolveFrom(r, BothOpen, 5, Levels([], [1, 3], [], [], NoLoop))
  {
    var l1 := Levels([], [1], [], [], NoLoop);
    var l3 := Levels([], [1, 3], [], [], NoLoop);
    StepPlain(r, OuterOpen, 2, l1);
    StepOpen(r, OuterOpen, 3, l1);
    assert l1.(ifs := l1.ifs + [3]) == l3;
    BothOpenJumps();
    StepPlain(r, BothOpen, 4, l3);
  }

  const BothOpen: seq<Atom> :=
    [Int(1), Flow(If, Some(0)), Int(1), Flow(If, Some(0)), Int(2), F(Else), Int(3), F(Endif), F(Endif)]

  lemma {:induction false} BothOpenJumps()
    ensures SetJump(OuterOpen, 3, 0) == BothOpen
  {
  }

  /** As written, an `if`/`else` inside the first branch of another `if` is
      refused: two `if`s are open and no `else` is on record. */
  lemma {:induction false} NestedIfElseRejected()
    ensures Resolve(AsWritten, NestedBlock) == Unresolved("Unexpected 'else' statement!")
  {
    NestedPrefix(AsWritten);
    assert !ElseAllowed(AsWritten, BothOpen, Levels([], [1, 3], [], [], NoLoop));
    StepElse(AsWritten, BothOpen, 5, Levels([], [1, 3], [], [], NoLoop));
  }

  /** With the corrected rule the inner `else` belongs to the inner `if`, and
      the outer `if` jumps to the outer `endif`. */
  lemma {:induction false} NestedIfElseResolved()
    ensures Resolve(Corrected, NestedBlock) == Resolved(NestedResolved)
  {
    NestedPrefix(Corrected);
    InnerElseStep();
    InnerEndif();
    OuterEndif();
  }

  const NestedResolved: seq<Atom> :=
    [Int(1), Flow(If, Some(8)), Int(1), Flow(If, Some(5)), Int(2), Flow(Else, Some(7)), Int(3), F(Endif), F(Endif)]

  lemma {:induction false} NestedResolvedJumps()
    ensures SetJump(InnerClosed, 1, 8) == NestedResolved
  {
  }

  /** `else`: the inner `if`, the innermost one, has none yet. */
  lemma {:induction false} InnerElseStep()
    ensures ResolveFrom(Corrected, BothOpen, 5, Levels([], [1, 3], [], [], NoLoop))
         == ResolveFrom(Corrected, InnerElse, 6, Levels([], [1, 3], [3], [], NoLoop))
  {
    var l3 := Levels([], [1, 3], [], [], NoLoop);
    assert JumpOf(BothOpen, 3) == 0;
    assert ElseAllowed(Corrected, BothOpen, l3);
    StepElse(Corrected, BothOpen, 5, l3);
    assert Top(l3.ifs) == 3;
    assert l3.(elses := l3.elses + [3]) == Levels([], [1, 3], [3], [], NoLoop);
    InnerElseJumps();
  }

  const InnerElse: seq<Atom> :=
    [Int(1), Flow(If, Some(0)), Int(1), Flow(If, Some(5)), Int(2), F(Else), Int(3), F(Endif), F(Endif)]

  lemma {:induction false} InnerElseJumps()
    ensures SetJump(BothOpen, 3, 5) == InnerElse
  {
  }

  /** `3 endif`: the inner `else` jumps to the first `endif`. */
  lemma {:induction false} InnerEndif()
    ensures ResolveFrom(Corrected, InnerElse, 6, Levels([], [1, 3], [3], [], NoLoop))
         == ResolveFrom(Corrected, InnerClosed, 8, Levels([], [1], [3], [], NoLoop))
  {
    var r := Corrected;
    var l5 := Levels([], [1, 3], [3], [], NoLoop);
    StepPlain(r, InnerElse, 6, l5);
    assert JumpOf(InnerElse, 3) == 5;
    StepEndif(r, InnerElse, 7, l5);
    assert l5.(ifs := Pop(l5.ifs)) == Levels([], [1], [3], [], NoLoop);
    InnerClosedJumps();
  }

  const InnerClosed: seq<Atom> :=
    [Int(1), Flow(If, Some(0)), Int(1), Flow(If, Some(5)), Int(2), Flow(Else, Some(7)), Int(3), F(Endif), F(Endif)]

  lemma {:induction false} InnerClosedJumps()
    ensures SetJump(InnerElse, 5, 7) == InnerClosed
  {
  }

  /** The second `endif` closes the outer `if`, which jumps to it. */
  lemma {:induction false} OuterEndif()
    ensures ResolveFrom(Corrected, InnerClosed, 8, Levels([], [1], [3], [], NoLoop)) == Resolved(NestedResolved)
  {
    var r := Corrected;
    var l7 := Levels([], [1], [3], [], NoLoop);
    assert JumpOf(InnerClosed, 1) == 0;
    StepEndif(r, InnerClosed, 8, l7);
    assert l7.(ifs := Pop(l7.ifs)) == Levels([], [], [3], [], NoLoop);
    NestedResolvedJumps();
    StepEnd(r, NestedResolved, Levels([], [], [3], [], NoLoop));
  }

  /** An `if` (not at the start) followed past plain atoms by an `else`.
      As written the `else` is accepted exactly when the open `if`s before
      this one are as many as the `else`s on record; so once any `if` has
      met an `else`, or while another `if` is open with none recorded, the
      pair is refused. Corrected, the new `if` always takes its `else`. */
  lemma {:induction false} IfThenElse(ed: Edition, code: seq<Atom>, pc: nat, q: nat, lv: Levels)
    requires 1 <= pc < q < |code| && IsFlow(code, pc, If) && IsFlow(code, q, Else)
    requires forall i :: pc < i < q ==> !code[i].Flow?
    ensures var accepted := ed == Corrected || |lv.ifs| == |lv.elses|;
      && (!accepted ==> ResolveFrom(ed, code, pc, lv) == Unresolved("Unexpected 'else' statement!"))
      && (accepted ==>
            ResolveFrom(ed, code, pc, lv)
            == ResolveFrom(ed, SetJump(code, pc, q), q + 1, lv.(ifs := lv.ifs + [pc], elses := lv.elses + [pc])))
  {
    var c1 := SetJump(code, pc, 0);
    var l1 := lv.(ifs := lv.ifs + [pc]);
    StepOpen(ed, code, pc, lv);
    assert forall i :: pc + 1 <= i < pc + 1 + (q - pc - 1) ==> !c1[i].Flow?;
    PlainRun(ed, c1, pc + 1, q - pc - 1, l1);
    assert Top(l1.ifs) == pc && JumpOf(c1, pc) == 0;
    StepElse(ed, c1, q, l1);
    assert SetJump(c1, pc, q) == SetJump(code, pc, q);
    assert l1.(elses := l1.elses + [pc]) == lv.(ifs := lv.ifs + [pc], elses := lv.elses + [pc]);
  }

  /** The corrected rule looks only at the innermost open `if`, so the record
      of `else`s met before (which the source never clears) cannot change
      the outcome of resolution. */
  lemma {:induction false} ElsesIrrelevant(code: seq<Atom>, pc: nat, lv: Levels, e: seq<nat>)
    ensures ResolveFrom(Corrected, code, pc, lv) == ResolveFrom(Corrected, code, pc, lv.(elses := e))
    decreases |code| - pc
  {
    if pc < |code| {
      if !code[pc].Flow? {
        ElsesIrrelevant(code, pc + 1, lv, e);
      } else {
        match code[pc].kw
        case For => ElsesIrrelevant(code, pc + 1, lv.(fors := lv.fors + [pc], last := ForLoop), e);
        case While => ElsesIrrelevant(code, pc + 1, lv.(whiles := lv.whiles + [pc], last := WhileLoop), e);
        case If => ElsesIrrelevant(SetJump(code, pc, 0), pc + 1, lv.(ifs := lv.ifs + [pc]), e);
        case Else =>
          if ElseAllowed(Corrected, code, lv) {
            ElsesIrrelevant(SetJump(code, Top(lv.ifs), pc), pc + 1, lv.(elses := lv.elses + [Top(lv.ifs)]), e + [Top(lv.ifs)]);
          }
        case Endif =>
          if |lv.ifs| > 0 {
            var a := Top(lv.ifs);
            var c := if JumpOf(code, a) == 0 then SetJump(code, a, pc) else SetJump(code, JumpOf(code, a), pc);
            ElsesIrrelevant(c, pc + 1, lv.(ifs := Pop(lv.ifs)), e);
          }
        case Next =>
          if |lv.fors| > 0 {
            ElsesIrrelevant(SetJump(SetJump(code, pc, Top(lv.fors)), Top(lv.fors), pc), pc + 1, lv.(fors := Pop(lv.fors)), e);
          }
        case Loop =>
          if |lv.whiles| > 0 {
            ElsesIrrelevant(SetJump(SetJump(code, pc, Top(lv.whiles)), Top(lv.whiles), pc), pc + 1, lv.(whiles := Pop(lv.whiles)), e);
          }
        case Break =>
          if lv.last == WhileLoop && |lv.whiles| > 0 {
            ElsesIrrelevant(SetJump(code, pc, Top(lv.whiles)), pc + 1, lv, e);
          } else if lv.last == ForLoop && |lv.fors| > 0 {
            ElsesIrrelevant(SetJump(code, pc, Top(lv.fors)), pc + 1, lv, e);
          }
        case Return => ElsesIrrelevant(code, pc + 1, lv, e);
      }
    }
  }
}
