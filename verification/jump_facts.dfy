/** What jump resolution guarantees: every `loop` and `next` is linked both
    ways with the `while` or `for` that opened it, every `if` jumps forward to
    its own `else` or `endif` and every `else` forward to an `endif`, every
    `break` jumps back to a loop head, and only
    jump addresses change. Also the error each unmatched word draws, and the
    two programs that show the source's `else` rule at fault. */
module JumpFacts {
  import opened Atoms
  import opened Jumps

  // One step of the resolution loop per kind of atom.

  lemma {:induction false} StepPlain(ed: Edition, code: seq<Atom>, pc: nat, lv: Levels)
    requires pc < |code| && !code[pc].Flow?
    ensures ResolveFrom(ed, code, pc, lv) == ResolveFrom(ed, code, pc + 1, lv)
  {
  }

  lemma {:induction false} StepOpen(ed: Edition, code: seq<Atom>, pc: nat, lv: Levels)
    requires pc < |code| && code[pc].Flow? && code[pc].kw in {For, If, While}
    ensures pc < 1 ==> ResolveFrom(ed, code, pc, lv) == Unresolved(NotEnoughData(FlowText(code[pc].kw)))
    ensures pc >= 1 && code[pc].kw == For ==>
      ResolveFrom(ed, code, pc, lv) == ResolveFrom(ed, code, pc + 1, lv.(fors := lv.fors + [pc], last := ForLoop))
    ensures pc >= 1 && code[pc].kw == If ==>
      ResolveFrom(ed, code, pc, lv) == ResolveFrom(ed, SetJump(code, pc, 0), pc + 1, lv.(ifs := lv.ifs + [pc]))
    ensures pc >= 1 && code[pc].kw == While ==>
      ResolveFrom(ed, code, pc, lv) == ResolveFrom(ed, code, pc + 1, lv.(whiles := lv.whiles + [pc], last := WhileLoop))
  {
  }

  lemma {:induction false} StepNext(ed: Edition, code: seq<Atom>, pc: nat, lv: Levels)
    requires IsFlow(code, pc, Next)
    ensures |lv.fors| == 0 ==> ResolveFrom(ed, code, pc, lv) == Unresolved("'next' without 'for'")
    ensures |lv.fors| > 0 ==>
      ResolveFrom(ed, code, pc, lv)
      == ResolveFrom(ed, SetJump(SetJump(code, pc, Top(lv.fors)), Top(lv.fors), pc), pc + 1, lv.(fors := Pop(lv.fors)))
  {
  }

  lemma {:induction false} StepLoop(ed: Edition, code: seq<Atom>, pc: nat, lv: Levels)
    requires IsFlow(code, pc, Loop)
    ensures |lv.whiles| == 0 ==> ResolveFrom(ed, code, pc, lv) == Unresolved("'loop' without 'while'")
    ensures |lv.whiles| > 0 ==>
      ResolveFrom(ed, code, pc, lv)
      == ResolveFrom(ed, SetJump(SetJump(code, pc, Top(lv.whiles)), Top(lv.whiles), pc), pc + 1, lv.(whiles := Pop(lv.whiles)))
  {
  }

  lemma {:induction false} StepElse(ed: Edition, code: seq<Atom>, pc: nat, lv: Levels)
    requires IsFlow(code, pc, Else)
    ensures !ElseAllowed(ed, code, lv) ==> ResolveFrom(ed, code, pc, lv) == Unresolved("Unexpected 'else' statement!")
    ensures ElseAllowed(ed, code, lv) ==>
      |lv.ifs| > 0 && ResolveFrom(ed, code, pc, lv)
      == ResolveFrom(ed, SetJump(code, Top(lv.ifs), pc), pc + 1, lv.(elses := lv.elses + [Top(lv.ifs)]))
  {
  }

  lemma {:induction false} StepEndif(ed: Edition, code: seq<Atom>, pc: nat, lv: Levels)
    requires IsFlow(code, pc, Endif)
    ensures |lv.ifs| == 0 ==> ResolveFrom(ed, code, pc, lv) == Unresolved("'then' without 'if'")
    ensures |lv.ifs| > 0 ==>
      ResolveFrom(ed, code, pc, lv) == ResolveFrom(ed,
      if JumpOf(code, Top(lv.ifs)) == 0 then SetJump(code, Top(lv.ifs), pc)
      else SetJump(code, JumpOf(code, Top(lv.ifs)), pc),
      pc + 1, lv.(ifs := Pop(lv.ifs)))
  {
  }

  lemma {:induction false} StepBreak(ed: Edition, code: seq<Atom>, pc: nat, lv: Levels)
    requires IsFlow(code, pc, Break)
    ensures lv.last == NoLoop ==> ResolveFrom(ed, code, pc, lv) == Unresolved("'break' without 'for' or 'while'")
    ensures lv.last == WhileLoop && |lv.whiles| == 0 ==> ResolveFrom(ed, code, pc, lv) == Unresolved("'break' without 'while'")
    ensures lv.last == ForLoop && |lv.fors| == 0 ==> ResolveFrom(ed, code, pc, lv) == Unresolved("'break' without 'for'")
    ensures lv.last == WhileLoop && |lv.whiles| > 0 ==>
      ResolveFrom(ed, code, pc, lv) == ResolveFrom(ed, SetJump(code, pc, Top(lv.whiles)), pc + 1, lv)
    ensures lv.last == ForLoop && |lv.fors| > 0 ==>
      ResolveFrom(ed, code, pc, lv) == ResolveFrom(ed, SetJump(code, pc, Top(lv.fors)), pc + 1, lv)
  {
  }

  lemma {:induction false} StepReturn(ed: Edition, code: seq<Atom>, pc: nat, lv: Levels)
    requires IsFlow(code, pc, Return)
    ensures ResolveFrom(ed, code, pc, lv) == ResolveFrom(ed, code, pc + 1, lv)
  {
  }

  lemma {:induction false} StepEnd(ed: Edition, code: seq<Atom>, lv: Levels)
    ensures ResolveFrom(ed, code, |code|, lv) ==
      if |lv.fors| > 0 then Unresolved("'for' without closing 'next''")
      else if |lv.ifs| > 0 then Unresolved("'if' without closing 'endif''")
      else Resolved(code)
  {
  }

  // The links resolution establishes.

  /** Resolution changes jump addresses only. */
  predicate SameShape(a: Atom, b: Atom) {
    if a.Flow? then b.Flow? && b.kw == a.kw else b == a
  }

  predicate Shaped(code0: seq<Atom>, code: seq<Atom>) {
    |code| == |code0| && forall k :: 0 <= k < |code| ==> SameShape(code0[k], code[k])
  }

  /** The `loop` at `k` jumps back to a `while` that jumps forward to it. */
  predicate LoopLinked(code: seq<Atom>, k: nat)
    requires k < |code| && code[k].Flow?
  {
    code[k].jump.Some? && code[k].jump.value < k && code[code[k].jump.value] == Flow(While, Some(k))
  }

  /** The `next` at `k` jumps back to a `for` that jumps forward to it. */
  predicate NextLinked(code: seq<Atom>, k: nat)
    requires k < |code| && code[k].Flow?
  {
    code[k].jump.Some? && code[k].jump.value < k && code[code[k].jump.value] == Flow(For, Some(k))
  }

  /** The `for` at `j` jumps forward (before `bound`) to a `next` that jumps
      back to it. */
  predicate ForLinked(code: seq<Atom>, j: nat, bound: nat)
    requires j < |code| && code[j].Flow?
  {
    code[j].jump.Some? && j < code[j].jump.value < bound && code[j].jump.value < |code|
    && code[code[j].jump.value] == Flow(Next, Some(j))
  }

  /** The `break` at `k` jumps back to a `while` or a `for`. */
  predicate BreakLinked(code: seq<Atom>, k: nat)
    requires k < |code| && code[k].Flow?
  {
    code[k].jump.Some? && code[k].jump.value < k
    && (IsFlow(code, code[k].jump.value, While) || IsFlow(code, code[k].jump.value, For))
  }

  /** The addresses on an open stack ascend, lie before `pc` and hold `w`. */
  predicate OpenStack(code: seq<Atom>, s: seq<nat>, pc: nat, w: FlowWord) {
    && (forall a, b :: 0 <= a < b < |s| ==> s[a] < s[b])
    && (forall i :: 0 <= i < |s| ==> s[i] < pc && IsFlow(code, s[i], w))
  }

  /** The state of resolution before address `pc`: the open stacks, */
  predicate InvOpen(code0: seq<Atom>, code: seq<Atom>, pc: nat, lv: Levels) {
    && pc <= |code| && Shaped(code0, code)
    && OpenStack(code, lv.fors, pc, For) && OpenStack(code, lv.whiles, pc, While) && OpenStack(code, lv.ifs, pc, If)
  }

  /** the links made so far, */
  predicate InvLinks(code: seq<Atom>, pc: nat, lv: Levels)
    requires pc <= |code|
  {
    && (forall k :: 0 <= k < pc && IsFlow(code, k, Loop) ==> LoopLinked(code, k) && code[k].jump.value !in lv.whiles)
    && (forall k :: 0 <= k < pc && IsFlow(code, k, Next) ==> NextLinked(code, k) && code[k].jump.value !in lv.fors)
    && (forall j :: 0 <= j < pc && IsFlow(code, j, For) && j !in lv.fors ==> ForLinked(code, j, pc))
    && (forall k :: 0 <= k < pc && IsFlow(code, k, Break) ==> BreakLinked(code, k))
  }

  /** and both together. */
  predicate Inv(code0: seq<Atom>, code: seq<Atom>, pc: nat, lv: Levels) {
    InvOpen(code0, code, pc, lv) && InvLinks(code, pc, lv)
  }

  /** What a resolved program satisfies. */
  predicate Linked(code0: seq<Atom>, r: seq<Atom>) {
    && Shaped(code0, r)
    && (forall k :: 0 <= k < |r| && IsFlow(r, k, Loop) ==> LoopLinked(r, k))
    && (forall k :: 0 <= k < |r| && IsFlow(r, k, Next) ==> NextLinked(r, k))
    && (forall j :: 0 <= j < |r| && IsFlow(r, j, For) ==> ForLinked(r, j, |r|))
    && (forall k :: 0 <= k < |r| && IsFlow(r, k, Break) ==> BreakLinked(r, k))
    && IfsLinked(r)
  }

  // The `if`/`else`/`endif` structure.

  /** The `else` at `k` jumps forward (before `bound`) to an `endif`. */
  predicate ElseJumps(code: seq<Atom>, k: nat, bound: nat) {
    k < JumpOf(code, k) < bound && IsFlow(code, JumpOf(code, k), Endif)
  }

  /** The `if` at `j` jumps forward (before `bound`) to an `endif`, or to an
      `else` that jumps forward to an `endif`. */
  predicate IfClosed(code: seq<Atom>, j: nat, bound: nat) {
    var t := JumpOf(code, j);
    && j < t < bound
    && (IsFlow(code, t, Endif) || (IsFlow(code, t, Else) && ElseJumps(code, t, bound)))
  }

  /** The `endif` an `if` reaches: its own target, or its `else`'s. */
  function EndOf(code: seq<Atom>, j: nat): nat {
    var t := JumpOf(code, j);
    if IsFlow(code, t, Else) then JumpOf(code, t) else t
  }

  /** Every `if` strictly inside the `if` at `j` is none of the open `ifs`
      and ends inside the part it starts in: before the `else` (or `endif`)
      of `j` when it starts before it, before the `endif` of `j` otherwise. */
  predicate Nested(code: seq<Atom>, j: nat, ifs: seq<nat>) {
    forall j' :: j < j' < EndOf(code, j) && IsFlow(code, j', If) ==>
      && j' !in ifs
      && EndOf(code, j') < (if j' < JumpOf(code, j) then JumpOf(code, j) else EndOf(code, j))
  }

  /** The `else` at `k` is the target of an `if` before it. */
  predicate ElseOwned(code: seq<Atom>, k: nat) {
    exists j :: 0 <= j < k && IsFlow(code, j, If) && JumpOf(code, j) == k
  }

  /** The `endif` at `k` ends an `if` before it that is none of the open
      `ifs`. */
  predicate EndifOwned(code: seq<Atom>, k: nat, ifs: seq<nat>) {
    exists j :: 0 <= j < k && IsFlow(code, j, If) && j !in ifs && EndOf(code, j) == k
  }

  /** No two `if`s before `pc` share a jump address other than 0. */
  predicate IfsDistinct(code: seq<Atom>, pc: nat) {
    forall j1, j2 :: 0 <= j1 < j2 < pc && IsFlow(code, j1, If) && IsFlow(code, j2, If) && JumpOf(code, j1) == JumpOf(code, j2)
      ==> JumpOf(code, j1) == 0
  }

  /** What resolution makes of the `if` family: every `if` jumps forward to
      an `else` of its own, which jumps forward to an `endif`, or straight to
      an `endif`; the `if`s nest properly; every `else` is the target of an
      `if` and every `endif` ends one; and no two `if`s share a target. */
  predicate IfsLinked(r: seq<Atom>) {
    && (forall j :: 0 <= j < |r| && IsFlow(r, j, If) ==> IfClosed(r, j, |r|) && Nested(r, j, []))
    && (forall k :: 0 <= k < |r| && IsFlow(r, k, Else) ==> ElseOwned(r, k) && ElseJumps(r, k, |r|))
    && (forall k :: 0 <= k < |r| && IsFlow(r, k, Endif) ==> EndifOwned(r, k, []))
    && IfsDistinct(r, |r|)
  }

  /** An open `if` has met no `else` yet, or jumps to the `else` it met, and
      every `if` between the two is closed and ends before that `else`. */
  predicate OpenIf(code: seq<Atom>, a: nat, pc: nat, ifs: seq<nat>) {
    var e := JumpOf(code, a);
    e == 0 || (a < e < pc && IsFlow(code, e, Else) && ThenNested(code, a, e, ifs))
  }

  predicate ThenNested(code: seq<Atom>, a: nat, e: nat, ifs: seq<nat>) {
    forall j' :: a < j' < e && IsFlow(code, j', If) ==> j' !in ifs && EndOf(code, j') < e
  }

  /** As written, an open `if` that has met its `else` sits lower on the
      stack than the number of `else`s recorded, so the counting rule never
      admits a second `else` for it. */
  predicate CountOk(ed: Edition, code: seq<Atom>, lv: Levels) {
    ed == AsWritten ==> forall i :: 0 <= i < |lv.ifs| && JumpOf(code, lv.ifs[i]) != 0 ==> i < |lv.elses|
  }

  predicate OpenOk(code: seq<Atom>, pc: nat, ifs: seq<nat>) {
    forall i :: 0 <= i < |ifs| ==> OpenIf(code, ifs[i], pc, ifs)
  }

  predicate ClosedOk(code: seq<Atom>, pc: nat, ifs: seq<nat>) {
    forall j :: 0 <= j < pc && IsFlow(code, j, If) && j !in ifs ==> IfClosed(code, j, pc) && Nested(code, j, ifs)
  }

  predicate ElsesOwned(code: seq<Atom>, pc: nat) {
    forall k :: 0 <= k < pc && IsFlow(code, k, Else) ==> ElseOwned(code, k)
  }

  predicate EndifsOwned(code: seq<Atom>, pc: nat, ifs: seq<nat>) {
    forall k :: 0 <= k < pc && IsFlow(code, k, Endif) ==> EndifOwned(code, k, ifs)
  }

  /** The `if` family before `pc`: open `if`s, closed ones, owners. */
  predicate InvIfs(ed: Edition, code: seq<Atom>, pc: nat, lv: Levels) {
    && CountOk(ed, code, lv)
    && OpenOk(code, pc, lv.ifs)
    && ClosedOk(code, pc, lv.ifs)
    && ElsesOwned(code, pc)
    && EndifsOwned(code, pc, lv.ifs)
    && IfsDistinct(code, pc)
  }

  lemma {:induction false} InvPass(code0: seq<Atom>, code: seq<Atom>, pc: nat, lv: Levels)
    requires Inv(code0, code, pc, lv) && pc < |code|
    requires !code[pc].Flow? || code[pc].kw == Return
    ensures Inv(code0, code, pc + 1, lv)
  {
  }

  lemma {:induction false} InvFor(code0: seq<Atom>, code: seq<Atom>, pc: nat, lv: Levels)
    requires Inv(code0, code, pc, lv) && IsFlow(code, pc, For)
    ensures Inv(code0, code, pc + 1, lv.(fors := lv.fors + [pc], last := ForLoop))
  {
  }

  lemma {:induction false} InvWhile(code0: seq<Atom>, code: seq<Atom>, pc: nat, lv: Levels)
    requires Inv(code0, code, pc, lv) && IsFlow(code, pc, While)
    ensures Inv(code0, code, pc + 1, lv.(whiles := lv.whiles + [pc], last := WhileLoop))
  {
  }

  /** Setting the jump at a flow word changes that jump and nothing else. */
  lemma {:induction false} SetJumpFrame(code: seq<Atom>, i: nat, j: nat)
    requires i < |code| && code[i].Flow?
    ensures |SetJump(code, i, j)| == |code|
    ensures SetJump(code, i, j)[i] == Flow(code[i].kw, Some(j))
    ensures forall k :: 0 <= k < |code| && k != i ==> SetJump(code, i, j)[k] == code[k]
    ensures forall k: nat, w :: IsFlow(SetJump(code, i, j), k, w) <==> IsFlow(code, k, w)
  {
  }

  lemma {:induction false} ShapedSetJump(code0: seq<Atom>, code: seq<Atom>, i: nat, j: nat)
    requires Shaped(code0, code) && i < |code| && code[i].Flow?
    ensures Shaped(code0, SetJump(code, i, j))
  {
    SetJumpFrame(code, i, j);
  }

  lemma {:induction false} InvIf(code0: seq<Atom>, code: seq<Atom>, pc: nat, lv: Levels)
    requires Inv(code0, code, pc, lv) && IsFlow(code, pc, If)
    ensures Inv(code0, SetJump(code, pc, 0), pc + 1, lv.(ifs := lv.ifs + [pc]))
  {
    var c := SetJump(code, pc, 0);
    var lv' := lv.(ifs := lv.ifs + [pc]);
    SetJumpFrame(code, pc, 0);
    ShapedSetJump(code0, code, pc, 0);
    assert OpenStack(c, lv'.fors, pc + 1, For);
    assert OpenStack(c, lv'.whiles, pc + 1, While);
    assert OpenStack(c, lv'.ifs, pc + 1, If);
    forall k | 0 <= k < pc + 1 && IsFlow(c, k, Loop)
      ensures LoopLinked(c, k) && c[k].jump.value !in lv'.whiles
    {
      assert LoopLinked(code, k);
    }
    forall k | 0 <= k < pc + 1 && IsFlow(c, k, Next)
      ensures NextLinked(c, k) && c[k].jump.value !in lv'.fors
    {
      assert NextLinked(code, k);
    }
    forall j | 0 <= j < pc + 1 && IsFlow(c, j, For) && j !in lv'.fors
      ensures ForLinked(c, j, pc + 1)
    {
      assert ForLinked(code, j, pc);
    }
    forall k | 0 <= k < pc + 1 && IsFlow(c, k, Break)
      ensures BreakLinked(c, k)
    {
      assert BreakLinked(code, k);
    }
  }

  lemma {:induction false} InvElse(code0: seq<Atom>, code: seq<Atom>, pc: nat, lv: Levels)
    requires Inv(code0, code, pc, lv) && IsFlow(code, pc, Else) && |lv.ifs| > 0
    ensures Inv(code0, SetJump(code, Top(lv.ifs), pc), pc + 1, lv.(elses := lv.elses + [Top(lv.ifs)]))
  {
    ElseOpen(code0, code, pc, lv);
    ElseLinks(code0, code, pc, lv);
  }

  lemma {:induction false} ElseOpen(code0: seq<Atom>, code: seq<Atom>, pc: nat, lv: Levels)
    requires Inv(code0, code, pc, lv) && IsFlow(code, pc, Else) && |lv.ifs| > 0
    ensures InvOpen(code0, SetJump(code, Top(lv.ifs), pc), pc + 1, lv.(elses := lv.elses + [Top(lv.ifs)]))
  {
    var a := Top(lv.ifs);
    assert IsFlow(code, a, If);
    var c := SetJump(code, a, pc);
    var lv' := lv.(elses := lv.elses + [a]);
    SetJumpFrame(code, a, pc);
    ShapedSetJump(code0, code, a, pc);
    assert OpenStack(c, lv'.fors, pc + 1, For);
    assert OpenStack(c, lv'.whiles, pc + 1, While);
    assert OpenStack(c, lv'.ifs, pc + 1, If);
  }

  lemma {:induction false} ElseLinks(code0: seq<Atom>, code: seq<Atom>, pc: nat, lv: Levels)
    requires Inv(code0, code, pc, lv) && IsFlow(code, pc, Else) && |lv.ifs| > 0
    ensures |SetJump(code, Top(lv.ifs), pc)| == |code|
    ensures InvLinks(SetJump(code, Top(lv.ifs), pc), pc + 1, lv.(elses := lv.elses + [Top(lv.ifs)]))
  {
    var a := Top(lv.ifs);
    assert IsFlow(code, a, If);
    var c := SetJump(code, a, pc);
    var lv' := lv.(elses := lv.elses + [a]);
    SetJumpFrame(code, a, pc);
    forall k | 0 <= k < pc + 1 && IsFlow(c, k, Loop)
      ensures LoopLinked(c, k) && c[k].jump.value !in lv'.whiles
    {
      assert LoopLinked(code, k);
    }
    forall k | 0 <= k < pc + 1 && IsFlow(c, k, Next)
      ensures NextLinked(c, k) && c[k].jump.value !in lv'.fors
    {
      assert NextLinked(code, k);
    }
    forall j | 0 <= j < pc + 1 && IsFlow(c, j, For) && j !in lv'.fors
      ensures ForLinked(c, j, pc + 1)
    {
      assert ForLinked(code, j, pc);
    }
    forall k | 0 <= k < pc + 1 && IsFlow(c, k, Break)
      ensures BreakLinked(c, k)
    {
      assert BreakLinked(code, k);
    }
  }

  lemma {:induction false} InvEndif(code0: seq<Atom>, code: seq<Atom>, pc: nat, lv: Levels)
    requires Inv(code0, code, pc, lv) && IsFlow(code, pc, Endif) && |lv.ifs| > 0
    requires OpenIf(code, Top(lv.ifs), pc, lv.ifs)
    ensures Inv(code0,
      if JumpOf(code, Top(lv.ifs)) == 0 then SetJump(code, Top(lv.ifs), pc)
      else SetJump(code, JumpOf(code, Top(lv.ifs)), pc),
      pc + 1, lv.(ifs := Pop(lv.ifs)))
  {
    var a := Top(lv.ifs);
    assert IsFlow(code, a, If);
    if JumpOf(code, a) == 0 {
      InvEndifAt(code0, code, pc, lv, a);
    } else {
      InvEndifAt(code0, code, pc, lv, JumpOf(code, a));
    }
  }

  /** `endif` closes the innermost `if` by setting the jump at `x`: the `if`
      itself when it met no `else`, or else its `else`. Only the jump at `x`
      changes, so the loop links survive. */
  lemma {:induction false} InvEndifAt(code0: seq<Atom>, code: seq<Atom>, pc: nat, lv: Levels, x: nat)
    requires Inv(code0, code, pc, lv) && IsFlow(code, pc, Endif) && |lv.ifs| > 0
    requires x < |code| && code[x].Flow? && code[x].kw in {If, Else}
    ensures Inv(code0, SetJump(code, x, pc), pc + 1, lv.(ifs := Pop(lv.ifs)))
  {
    EndifOpen(code0, code, pc, lv, x);
    EndifLinks(code0, code, pc, lv, x);
  }

  lemma {:induction false} EndifOpen(code0: seq<Atom>, code: seq<Atom>, pc: nat, lv: Levels, x: nat)
    requires Inv(code0, code, pc, lv) && IsFlow(code, pc, Endif) && |lv.ifs| > 0
    requires x < |code| && code[x].Flow? && code[x].kw in {If, Else}
    ensures InvOpen(code0, SetJump(code, x, pc), pc + 1, lv.(ifs := Pop(lv.ifs)))
  {
    var a := Top(lv.ifs);
    assert IsFlow(code, a, If) && a < pc;
    var c := SetJump(code, x, pc);
    var lv' := lv.(ifs := Pop(lv.ifs));
    SetJumpFrame(code, x, pc);
    ShapedSetJump(code0, code, x, pc);
    assert OpenStack(c, lv'.fors, pc + 1, For);
    assert OpenStack(c, lv'.whiles, pc + 1, While);
    assert OpenStack(c, lv'.ifs, pc + 1, If);
  }

  lemma {:induction false} EndifLinks(code0: seq<Atom>, code: seq<Atom>, pc: nat, lv: Levels, x: nat)
    requires Inv(code0, code, pc, lv) && IsFlow(code, pc, Endif) && |lv.ifs| > 0
    requires x < |code| && code[x].Flow? && code[x].kw in {If, Else}
    ensures |SetJump(code, x, pc)| == |code|
    ensures InvLinks(SetJump(code, x, pc), pc + 1, lv.(ifs := Pop(lv.ifs)))
  {
    EndifBackward(code0, code, pc, lv, x);
    EndifForward(code0, code, pc, lv, x);
  }

  /** The backward links of `loop` and `next` survive `endif`, */
  lemma {:induction false} EndifBackward(code0: seq<Atom>, code: seq<Atom>, pc: nat, lv: Levels, x: nat)
    requires Inv(code0, code, pc, lv) && IsFlow(code, pc, Endif) && |lv.ifs| > 0
    requires x < |code| && code[x].Flow? && code[x].kw in {If, Else}
    ensures |SetJump(code, x, pc)| == |code|
    ensures var c := SetJump(code, x, pc);
      && (forall k :: 0 <= k < pc + 1 && IsFlow(c, k, Loop) ==> LoopLinked(c, k) && c[k].jump.value !in lv.whiles)
      && (forall k :: 0 <= k < pc + 1 && IsFlow(c, k, Next) ==> NextLinked(c, k) && c[k].jump.value !in lv.fors)
  {
    var a := Top(lv.ifs);
    assert IsFlow(code, a, If) && a < pc;
    var c := SetJump(code, x, pc);
    var lv' := lv.(ifs := Pop(lv.ifs));
    SetJumpFrame(code, x, pc);
    forall k | 0 <= k < pc + 1 && IsFlow(c, k, Loop)
      ensures LoopLinked(c, k) && c[k].jump.value !in lv'.whiles
    {
      assert LoopLinked(code, k);
    }
    forall k | 0 <= k < pc + 1 && IsFlow(c, k, Next)
      ensures NextLinked(c, k) && c[k].jump.value !in lv'.fors
    {
      assert NextLinked(code, k);
    }
  }

  /** and so do those of `for` and `break`. */
  lemma {:induction false} EndifForward(code0: seq<Atom>, code: seq<Atom>, pc: nat, lv: Levels, x: nat)
    requires Inv(code0, code, pc, lv) && IsFlow(code, pc, Endif) && |lv.ifs| > 0
    requires x < |code| && code[x].Flow? && code[x].kw in {If, Else}
    ensures |SetJump(code, x, pc)| == |code|
    ensures var c := SetJump(code, x, pc);
      && (forall j :: 0 <= j < pc + 1 && IsFlow(c, j, For) && j !in lv.fors ==> ForLinked(c, j, pc + 1))
      && (forall k :: 0 <= k < pc + 1 && IsFlow(c, k, Break) ==> BreakLinked(c, k))
  {
    var a := Top(lv.ifs);
    assert IsFlow(code, a, If) && a < pc;
    var c := SetJump(code, x, pc);
    var lv' := lv.(ifs := Pop(lv.ifs));
    SetJumpFrame(code, x, pc);
    forall j | 0 <= j < pc + 1 && IsFlow(c, j, For) && j !in lv'.fors
      ensures ForLinked(c, j, pc + 1)
    {
      assert ForLinked(code, j, pc);
    }
    forall k | 0 <= k < pc + 1 && IsFlow(c, k, Break)
      ensures BreakLinked(c, k)
    {
      assert BreakLinked(code, k);
    }
  }

  lemma {:induction false} InvNext(code0: seq<Atom>, code: seq<Atom>, pc: nat, lv: Levels)
    requires Inv(code0, code, pc, lv) && IsFlow(code, pc, Next) && |lv.fors| > 0
    ensures Inv(code0, SetJump(SetJump(code, pc, Top(lv.fors)), Top(lv.fors), pc), pc + 1, lv.(fors := Pop(lv.fors)))
  {
    NextOpen(code0, code, pc, lv);
    NextLinks(code0, code, pc, lv);
  }

  /** Both jumps `next` sets, and the atoms they leave alone. */
  lemma {:induction false} NextFrame(code0: seq<Atom>, code: seq<Atom>, pc: nat, lv: Levels)
    requires Inv(code0, code, pc, lv) && IsFlow(code, pc, Next) && |lv.fors| > 0
    ensures var f, c := Top(lv.fors), SetJump(SetJump(code, pc, Top(lv.fors)), Top(lv.fors), pc);
      && IsFlow(code, f, For) && f < pc && Shaped(code0, c)
      && lv.fors == Pop(lv.fors) + [f] && f !in Pop(lv.fors)
      && c[pc] == Flow(Next, Some(f)) && c[f] == Flow(For, Some(pc))
      && (forall k :: 0 <= k < |code| && k != pc && k != f ==> c[k] == code[k])
      && (forall k: nat, w :: IsFlow(c, k, w) <==> IsFlow(code, k, w))
  {
    var f := Top(lv.fors);
    assert IsFlow(code, f, For) && f < pc;
    var c1 := SetJump(code, pc, f);
    SetJumpFrame(code, pc, f);
    ShapedSetJump(code0, code, pc, f);
    SetJumpFrame(c1, f, pc);
    ShapedSetJump(code0, c1, f, pc);
    var lv' := lv.(fors := Pop(lv.fors));
    assert lv.fors == lv'.fors + [f];
    assert f !in lv'.fors;
  }

  lemma {:induction false} NextOpen(code0: seq<Atom>, code: seq<Atom>, pc: nat, lv: Levels)
    requires Inv(code0, code, pc, lv) && IsFlow(code, pc, Next) && |lv.fors| > 0
    ensures InvOpen(code0, SetJump(SetJump(code, pc, Top(lv.fors)), Top(lv.fors), pc), pc + 1, lv.(fors := Pop(lv.fors)))
  {
    var f, c := Top(lv.fors), SetJump(SetJump(code, pc, Top(lv.fors)), Top(lv.fors), pc);
    var lv' := lv.(fors := Pop(lv.fors));
    NextFrame(code0, code, pc, lv);
    assert OpenStack(c, lv'.fors, pc + 1, For);
    assert OpenStack(c, lv'.whiles, pc + 1, While);
    assert OpenStack(c, lv'.ifs, pc + 1, If);
  }

  lemma {:induction false} NextLinks(code0: seq<Atom>, code: seq<Atom>, pc: nat, lv: Levels)
    requires Inv(code0, code, pc, lv) && IsFlow(code, pc, Next) && |lv.fors| > 0
    ensures |SetJump(SetJump(code, pc, Top(lv.fors)), Top(lv.fors), pc)| == |code|
    ensures InvLinks(SetJump(SetJump(code, pc, Top(lv.fors)), Top(lv.fors), pc), pc + 1, lv.(fors := Pop(lv.fors)))
  {
    var f, c := Top(lv.fors), SetJump(SetJump(code, pc, Top(lv.fors)), Top(lv.fors), pc);
    var lv' := lv.(fors := Pop(lv.fors));
    NextFrame(code0, code, pc, lv);
    forall k | 0 <= k < pc + 1 && IsFlow(c, k, Loop)
      ensures LoopLinked(c, k) && c[k].jump.value !in lv'.whiles
    {
      assert LoopLinked(code, k);
    }
    forall k | 0 <= k < pc + 1 && IsFlow(c, k, Next)
      ensures NextLinked(c, k) && c[k].jump.value !in lv'.fors
    {
      if k < pc {
        assert NextLinked(code, k);
      }
    }
    forall j | 0 <= j < pc + 1 && IsFlow(c, j, For) && j !in lv'.fors
      ensures ForLinked(c, j, pc + 1)
    {
      if j != f {
        assert j !in lv.fors;
        assert ForLinked(code, j, pc);
      }
    }
    forall k | 0 <= k < pc + 1 && IsFlow(c, k, Break)
      ensures BreakLinked(c, k)
    {
      assert BreakLinked(code, k);
    }
  }

  lemma {:induction false} InvLoop(code0: seq<Atom>, code: seq<Atom>, pc: nat, lv: Levels)
    requires Inv(code0, code, pc, lv) && IsFlow(code, pc, Loop) && |lv.whiles| > 0
    ensures Inv(code0, SetJump(SetJump(code, pc, Top(lv.whiles)), Top(lv.whiles), pc), pc + 1, lv.(whiles := Pop(lv.whiles)))
  {
    var w := Top(lv.whiles);
    assert IsFlow(code, w, While) && w < pc;
    var c1 := SetJump(code, pc, w);
    SetJumpFrame(code, pc, w);
    ShapedSetJump(code0, code, pc, w);
    var c := SetJump(c1, w, pc);
    SetJumpFrame(c1, w, pc);
    ShapedSetJump(code0, c1, w, pc);
    var lv' := lv.(whiles := Pop(lv.whiles));
    assert lv.whiles == lv'.whiles + [w];
    assert w !in lv'.whiles;
    assert c[pc] == Flow(Loop, Some(w)) && c[w] == Flow(While, Some(pc));
    assert forall k :: 0 <= k < |code| && k != pc && k != w ==> c[k] == code[k];
    assert OpenStack(c, lv'.fors, pc + 1, For);
    assert OpenStack(c, lv'.whiles, pc + 1, While);
    assert OpenStack(c, lv'.ifs, pc + 1, If);
    forall k | 0 <= k < pc + 1 && IsFlow(c, k, Loop)
      ensures LoopLinked(c, k) && c[k].jump.value !in lv'.whiles
    {
      if k < pc {
        assert LoopLinked(code, k);
      }
    }
    forall k | 0 <= k < pc + 1 && IsFlow(c, k, Next)
      ensures NextLinked(c, k) && c[k].jump.value !in lv'.fors
    {
      assert NextLinked(code, k);
    }
    forall j | 0 <= j < pc + 1 && IsFlow(c, j, For) && j !in lv'.fors
      ensures ForLinked(c, j, pc + 1)
    {
      assert ForLinked(code, j, pc);
    }
    forall k | 0 <= k < pc + 1 && IsFlow(c, k, Break)
      ensures BreakLinked(c, k)
    {
      assert BreakLinked(code, k);
    }
  }

  lemma {:induction false} InvBreak(code0: seq<Atom>, code: seq<Atom>, pc: nat, lv: Levels, t: nat)
    requires Inv(code0, code, pc, lv) && IsFlow(code, pc, Break)
    requires (t in lv.whiles && IsFlow(code, t, While)) || (t in lv.fors && IsFlow(code, t, For))
    ensures Inv(code0, SetJump(code, pc, t), pc + 1, lv)
  {
    var c := SetJump(code, pc, t);
    SetJumpFrame(code, pc, t);
    ShapedSetJump(code0, code, pc, t);
    assert t < pc;
    assert OpenStack(c, lv.fors, pc + 1, For);
    assert OpenStack(c, lv.whiles, pc + 1, While);
    assert OpenStack(c, lv.ifs, pc + 1, If);
    forall k | 0 <= k < pc + 1 && IsFlow(c, k, Loop)
      ensures LoopLinked(c, k) && c[k].jump.value !in lv.whiles
    {
      assert LoopLinked(code, k);
    }
    forall k | 0 <= k < pc + 1 && IsFlow(c, k, Next)
      ensures NextLinked(c, k) && c[k].jump.value !in lv.fors
    {
      assert NextLinked(code, k);
    }
    forall j | 0 <= j < pc + 1 && IsFlow(c, j, For) && j !in lv.fors
      ensures ForLinked(c, j, pc + 1)
    {
      assert ForLinked(code, j, pc);
    }
    forall k | 0 <= k < pc + 1 && IsFlow(c, k, Break)
      ensures BreakLinked(c, k)
    {
      if k < pc {
        assert BreakLinked(code, k);
      }
    }
  }

  // The `if` family through each step of resolution.

  predicate IfFamily(code: seq<Atom>, k: nat) {
    IsFlow(code, k, If) || IsFlow(code, k, Else) || IsFlow(code, k, Endif)
  }

  /** `c` is `code` with at most the atoms at `xs` changed, and those only in
      their jumps. */
  ghost predicate Frame(code: seq<Atom>, c: seq<Atom>, xs: set<nat>) {
    && |c| == |code|
    && (forall k: nat, w :: IsFlow(c, k, w) <==> IsFlow(code, k, w))
    && (forall k :: 0 <= k < |code| && k !in xs ==> c[k] == code[k])
  }

  lemma {:induction false} FrameSetJump(code: seq<Atom>, i: nat, j: nat)
    requires i < |code| && code[i].Flow?
    ensures Frame(code, SetJump(code, i, j), {i})
  {
    SetJumpFrame(code, i, j);
  }

  lemma {:induction false} FrameTrans(a: seq<Atom>, b: seq<Atom>, c: seq<Atom>, xs: set<nat>, ys: set<nat>)
    requires Frame(a, b, xs) && Frame(b, c, ys)
    ensures Frame(a, c, xs + ys)
  {
  }

  /** The jump and the end of the `if` at `j` survive a change that leaves
      it and its `else` alone. */
  lemma {:induction false} EndKept(code: seq<Atom>, c: seq<Atom>, xs: set<nat>, j: nat)
    requires Frame(code, c, xs) && IsFlow(code, j, If) && j !in xs
    requires IsFlow(code, JumpOf(code, j), Else) ==> JumpOf(code, j) !in xs
    ensures JumpOf(c, j) == JumpOf(code, j) && EndOf(c, j) == EndOf(code, j)
  {
    assert c[j] == code[j];
    var t := JumpOf(code, j);
    if IsFlow(code, t, Else) {
      assert c[t] == code[t];
    }
  }

  /** Every `if` before `pc` jumps below `pc`. */
  lemma {:induction false} IfJumpBelow(ed: Edition, code: seq<Atom>, pc: nat, lv: Levels, j: nat)
    requires InvIfs(ed, code, pc, lv) && j < pc && IsFlow(code, j, If)
    ensures JumpOf(code, j) < pc
  {
    if j in lv.ifs {
      var i :| 0 <= i < |lv.ifs| && lv.ifs[i] == j;
      assert OpenIf(code, lv.ifs[i], pc, lv.ifs);
    } else {
      assert IfClosed(code, j, pc);
    }
  }

  /** `c` keeps the kinds of `code`, and the jump and the end of every `if`
      before `pc` outside `skip`. */
  ghost predicate SameIfs(code: seq<Atom>, c: seq<Atom>, pc: nat, skip: set<nat>) {
    && |c| == |code|
    && (forall k: nat, w :: IsFlow(c, k, w) <==> IsFlow(code, k, w))
    && (forall j: nat :: j < pc && IsFlow(code, j, If) && j !in skip ==> JumpOf(c, j) == JumpOf(code, j) && EndOf(c, j) == EndOf(code, j))
  }

  /** Closed `if`s stay closed, and nested, when the open ones change only
      by `skip` (open ones) and by addresses from `pc` on. */
  lemma {:induction false} KeepClosed(code: seq<Atom>, c: seq<Atom>, pc: nat, ifs: seq<nat>, ifs': seq<nat>, skip: set<nat>)
    requires ClosedOk(code, pc, ifs) && SameIfs(code, c, pc, skip)
    requires forall x :: x in skip ==> x in ifs
    requires forall x :: x in ifs' && x < pc ==> x in ifs
    ensures forall j :: 0 <= j < pc && IsFlow(c, j, If) && j !in ifs ==> IfClosed(c, j, pc + 1) && Nested(c, j, ifs')
  {
    forall j | 0 <= j < pc && IsFlow(c, j, If) && j !in ifs
      ensures IfClosed(c, j, pc + 1) && Nested(c, j, ifs')
    {
      assert IfClosed(code, j, pc) && Nested(code, j, ifs);
      forall j' | j < j' < EndOf(c, j) && IsFlow(c, j', If)
        ensures j' !in ifs' && EndOf(c, j') < (if j' < JumpOf(c, j) then JumpOf(c, j) else EndOf(c, j))
      {
        assert j' !in ifs;
      }
    }
  }

  /** Open `if`s outside `skip` keep what `OpenIf` says of them. */
  lemma {:induction false} KeepOpen(code: seq<Atom>, c: seq<Atom>, pc: nat, ifs: seq<nat>, ifs': seq<nat>, skip: set<nat>)
    requires OpenOk(code, pc, ifs) && SameIfs(code, c, pc, skip) && OpenStack(code, ifs, pc, If)
    requires forall x :: x in skip ==> x in ifs
    requires forall x :: x in ifs' && x < pc ==> x in ifs
    ensures forall b :: b in ifs && b !in skip ==> OpenIf(c, b, pc + 1, ifs')
  {
    forall b | b in ifs && b !in skip
      ensures OpenIf(c, b, pc + 1, ifs')
    {
      var i :| 0 <= i < |ifs| && ifs[i] == b;
      assert OpenIf(code, ifs[i], pc, ifs);
      var e := JumpOf(code, b);
      if e != 0 {
        forall j' | b < j' < e && IsFlow(c, j', If)
          ensures j' !in ifs' && EndOf(c, j') < e
        {
          assert j' !in ifs;
        }
      }
    }
  }

  /** Every `else` keeps its owner when only `if`s with no `else` or with an
      unchanged jump are skipped. */
  lemma {:induction false} KeepElses(code: seq<Atom>, c: seq<Atom>, pc: nat, skip: set<nat>)
    requires ElsesOwned(code, pc) && SameIfs(code, c, pc, skip)
    requires forall x :: x in skip ==> JumpOf(code, x) == 0 || JumpOf(c, x) == JumpOf(code, x)
    ensures forall k :: 0 <= k < pc && IsFlow(c, k, Else) ==> ElseOwned(c, k)
  {
    forall k | 0 <= k < pc && IsFlow(c, k, Else)
      ensures ElseOwned(c, k)
    {
      assert ElseOwned(code, k);
      var j :| 0 <= j < k && IsFlow(code, j, If) && JumpOf(code, j) == k;
      assert JumpOf(c, j) == k;
    }
  }

  /** Every `endif` keeps the closed `if` it ends. */
  lemma {:induction false} KeepEndifs(code: seq<Atom>, c: seq<Atom>, pc: nat, ifs: seq<nat>, ifs': seq<nat>, skip: set<nat>)
    requires EndifsOwned(code, pc, ifs) && SameIfs(code, c, pc, skip)
    requires forall x :: x in skip ==> x in ifs
    requires forall x :: x in ifs' && x < pc ==> x in ifs
    ensures forall k :: 0 <= k < pc && IsFlow(c, k, Endif) ==> EndifOwned(c, k, ifs')
  {
    forall k | 0 <= k < pc && IsFlow(c, k, Endif)
      ensures EndifOwned(c, k, ifs')
    {
      assert EndifOwned(code, k, ifs);
      var j :| 0 <= j < k && IsFlow(code, j, If) && j !in ifs && EndOf(code, j) == k;
      assert EndOf(c, j) == k;
    }
  }

  /** Distinct targets survive when the only `if` whose jump changes takes
      `pc`, which no earlier `if` jumps to. */
  lemma {:induction false} KeepDistinct(ed: Edition, code: seq<Atom>, c: seq<Atom>, pc: nat, lv: Levels, skip: set<nat>)
    requires InvIfs(ed, code, pc, lv) && SameIfs(code, c, pc, skip)
    requires forall x, y :: x in skip && y in skip ==> x == y
    requires forall x :: x in skip ==> JumpOf(c, x) == pc || JumpOf(c, x) == JumpOf(code, x)
    requires !IsFlow(code, pc, If) || JumpOf(c, pc) == 0
    ensures IfsDistinct(c, pc + 1)
  {
    forall j1, j2 | 0 <= j1 < j2 < pc + 1 && IsFlow(c, j1, If) && IsFlow(c, j2, If) && JumpOf(c, j1) == JumpOf(c, j2)
      ensures JumpOf(c, j1) == 0
    {
      if j2 < pc {
        IfJumpBelow(ed, code, pc, lv, j1);
        IfJumpBelow(ed, code, pc, lv, j2);
        if j1 in skip && JumpOf(c, j1) == pc {
          assert j2 !in skip;
        } else if j2 in skip && JumpOf(c, j2) == pc {
          assert j1 !in skip;
        } else {
          assert JumpOf(code, j1) == JumpOf(code, j2);
        }
      }
    }
  }

  /** The jump and end of every `if` survive a change at `xs` that touches no
      `if` and no `else` of one. */
  lemma {:induction false} SameFromFrame(ed: Edition, code: seq<Atom>, c: seq<Atom>, xs: set<nat>, pc: nat, lv: Levels)
    requires Frame(code, c, xs)
    requires forall x :: x in xs ==> !IsFlow(code, x, If) && !IsFlow(code, x, Else)
    ensures SameIfs(code, c, pc, {})
  {
    forall j: nat | j < pc && IsFlow(code, j, If)
      ensures JumpOf(c, j) == JumpOf(code, j) && EndOf(c, j) == EndOf(code, j)
    {
      EndKept(code, c, xs, j);
    }
  }

  /** A step that passes no word of the `if` family and sets no jump in it
      keeps the invariant. */
  lemma {:induction false} IfsFrame(ed: Edition, code: seq<Atom>, c: seq<Atom>, xs: set<nat>, pc: nat, lv: Levels, lv': Levels)
    requires OpenStack(code, lv.ifs, pc, If) && InvIfs(ed, code, pc, lv) && Frame(code, c, xs)
    requires forall x :: x in xs ==> !IfFamily(code, x)
    requires pc < |code| && !IfFamily(code, pc) && lv'.ifs == lv.ifs && lv'.elses == lv.elses
    ensures InvIfs(ed, c, pc + 1, lv')
  {
    SameFromFrame(ed, code, c, xs, pc, lv);
    var ifs := lv.ifs;
    assert !IsFlow(c, pc, If) && !IsFlow(c, pc, Else) && !IsFlow(c, pc, Endif);
    assert ClosedOk(c, pc + 1, ifs) by {
      KeepClosed(code, c, pc, ifs, ifs, {});
    }
    assert OpenOk(c, pc + 1, ifs) by {
      KeepOpen(code, c, pc, ifs, ifs, {});
      forall i | 0 <= i < |ifs|
        ensures OpenIf(c, ifs[i], pc + 1, ifs)
      {
        assert ifs[i] in ifs;
      }
    }
    assert ElsesOwned(c, pc + 1) by {
      KeepElses(code, c, pc, {});
    }
    assert EndifsOwned(c, pc + 1, ifs) by {
      KeepEndifs(code, c, pc, ifs, ifs, {});
    }
    assert IfsDistinct(c, pc + 1) by {
      KeepDistinct(ed, code, c, pc, lv, {});
    }
    assert CountOk(ed, c, lv') by {
      forall i | 0 <= i < |ifs|
        ensures JumpOf(c, ifs[i]) == JumpOf(code, ifs[i])
      {
      }
    }
  }

  /** `if` opens with jump 0 and changes nothing else the invariant speaks
      of. */
  lemma {:induction false} IfsIf(ed: Edition, code: seq<Atom>, pc: nat, lv: Levels)
    requires OpenStack(code, lv.ifs, pc, If) && InvIfs(ed, code, pc, lv) && IsFlow(code, pc, If)
    ensures InvIfs(ed, SetJump(code, pc, 0), pc + 1, lv.(ifs := lv.ifs + [pc]))
  {
    var c := SetJump(code, pc, 0);
    var ifs' := lv.ifs + [pc];
    FrameSetJump(code, pc, 0);
    assert JumpOf(c, pc) == 0;
    assert SameIfs(code, c, pc, {}) by {
      forall j: nat | j < pc && IsFlow(code, j, If)
        ensures JumpOf(c, j) == JumpOf(code, j) && EndOf(c, j) == EndOf(code, j)
      {
        EndKept(code, c, {pc}, j);
      }
    }
    assert forall y :: y in ifs' && y < pc ==> y in lv.ifs;
    assert ClosedOk(c, pc + 1, ifs') by {
      KeepClosed(code, c, pc, lv.ifs, ifs', {});
    }
    assert OpenOk(c, pc + 1, ifs') by {
      KeepOpen(code, c, pc, lv.ifs, ifs', {});
      forall i | 0 <= i < |ifs'|
        ensures OpenIf(c, ifs'[i], pc + 1, ifs')
      {
        if i < |lv.ifs| {
          assert ifs'[i] == lv.ifs[i] && lv.ifs[i] in lv.ifs;
        }
      }
    }
    assert ElsesOwned(c, pc + 1) by {
      KeepElses(code, c, pc, {});
    }
    assert EndifsOwned(c, pc + 1, ifs') by {
      KeepEndifs(code, c, pc, lv.ifs, ifs', {});
    }
    assert IfsDistinct(c, pc + 1) by {
      KeepDistinct(ed, code, c, pc, lv, {});
    }
    assert CountOk(ed, c, lv.(ifs := ifs')) by {
      forall i | 0 <= i < |lv.ifs|
        ensures JumpOf(c, lv.ifs[i]) == JumpOf(code, lv.ifs[i])
      {
      }
    }
  }

  /** As the edition accepts it, an `else` finds the innermost `if` without
      one: corrected by its rule, as written by the count of `CountOk`. */
  lemma {:induction false} ElseFresh(ed: Edition, code: seq<Atom>, lv: Levels)
    requires CountOk(ed, code, lv) && ElseAllowed(ed, code, lv)
    ensures |lv.ifs| > 0 && JumpOf(code, Top(lv.ifs)) == 0
  {
    if ed == AsWritten {
      assert |lv.ifs| - 1 == |lv.elses|;
    }
  }

  /** An accepted `else` becomes the target of the innermost `if`. */
  lemma {:induction false} IfsElse(ed: Edition, code: seq<Atom>, pc: nat, lv: Levels)
    requires OpenStack(code, lv.ifs, pc, If) && InvIfs(ed, code, pc, lv) && IsFlow(code, pc, Else)
    requires ElseAllowed(ed, code, lv)
    ensures |lv.ifs| > 0
    ensures InvIfs(ed, SetJump(code, Top(lv.ifs), pc), pc + 1, lv.(elses := lv.elses + [Top(lv.ifs)]))
  {
    ElseFresh(ed, code, lv);
    var a := Top(lv.ifs);
    assert IsFlow(code, a, If) && a < pc;
    var c := SetJump(code, a, pc);
    FrameSetJump(code, a, pc);
    assert JumpOf(c, a) == pc;
    assert SameIfs(code, c, pc, {a}) by {
      forall j: nat | j < pc && IsFlow(code, j, If) && j != a
        ensures JumpOf(c, j) == JumpOf(code, j) && EndOf(c, j) == EndOf(code, j)
      {
        EndKept(code, c, {a}, j);
      }
    }
    assert ClosedOk(c, pc + 1, lv.ifs) by {
      KeepClosed(code, c, pc, lv.ifs, lv.ifs, {a});
    }
    assert OpenOk(c, pc + 1, lv.ifs) by {
      KeepOpen(code, c, pc, lv.ifs, lv.ifs, {a});
      ElseOpenTop(ed, code, c, pc, lv);
      forall i | 0 <= i < |lv.ifs|
        ensures OpenIf(c, lv.ifs[i], pc + 1, lv.ifs)
      {
        assert lv.ifs[i] in lv.ifs;
      }
    }
    assert ElsesOwned(c, pc + 1) by {
      KeepElses(code, c, pc, {a});
      assert IsFlow(c, a, If) && JumpOf(c, a) == pc;
      assert ElseOwned(c, pc);
    }
    assert EndifsOwned(c, pc + 1, lv.ifs) by {
      KeepEndifs(code, c, pc, lv.ifs, lv.ifs, {a});
    }
    assert IfsDistinct(c, pc + 1) by {
      KeepDistinct(ed, code, c, pc, lv, {a});
    }
    ElseCount(ed, code, c, pc, lv);
  }

  lemma {:induction false} ElseCount(ed: Edition, code: seq<Atom>, c: seq<Atom>, pc: nat, lv: Levels)
    requires InvIfs(ed, code, pc, lv) && ElseAllowed(ed, code, lv) && |lv.ifs| > 0
    requires OpenStack(code, lv.ifs, pc, If)
    requires c == SetJump(code, Top(lv.ifs), pc)
    ensures CountOk(ed, c, lv.(elses := lv.elses + [Top(lv.ifs)]))
  {
    var a := Top(lv.ifs);
    SetJumpFrame(code, a, pc);
    if ed == AsWritten {
      forall i | 0 <= i < |lv.ifs| && JumpOf(c, lv.ifs[i]) != 0
        ensures i < |lv.elses| + 1
      {
        if i < |lv.ifs| - 1 {
          assert lv.ifs[i] < a;
        }
      }
    }
  }

  /** The innermost `if` now jumps to the `else`, and every `if` between
      them is closed and ends before it. */
  lemma {:induction false} ElseOpenTop(ed: Edition, code: seq<Atom>, c: seq<Atom>, pc: nat, lv: Levels)
    requires InvIfs(ed, code, pc, lv) && |lv.ifs| > 0 && OpenStack(code, lv.ifs, pc, If)
    requires c == SetJump(code, Top(lv.ifs), pc) && IsFlow(code, pc, Else)
    requires SameIfs(code, c, pc, {Top(lv.ifs)})
    ensures OpenIf(c, Top(lv.ifs), pc + 1, lv.ifs)
  {
    var a := Top(lv.ifs);
    SetJumpFrame(code, a, pc);
    assert JumpOf(c, a) == pc;
    forall j' | a < j' < pc && IsFlow(c, j', If)
      ensures j' !in lv.ifs && EndOf(c, j') < pc
    {
      assert j' !in lv.ifs;
      assert IfClosed(code, j', pc);
    }
  }

  /** Every open `if` lies at or below the innermost one. */
  lemma {:induction false} BelowTop(code: seq<Atom>, ifs: seq<nat>, pc: nat)
    requires OpenStack(code, ifs, pc, If) && |ifs| > 0
    ensures forall i :: 0 <= i < |ifs| - 1 ==> ifs[i] < Top(ifs)
    ensures forall j :: j in Pop(ifs) ==> j < Top(ifs)
    ensures forall j :: Top(ifs) < j ==> j !in ifs
  {
  }

  /** `endif` closes the innermost `if` by setting the jump at `x`: the `if`
      itself when it met no `else`, or else its `else`. */
  lemma {:induction false} IfsEndif(ed: Edition, code: seq<Atom>, pc: nat, lv: Levels)
    requires OpenStack(code, lv.ifs, pc, If) && InvIfs(ed, code, pc, lv) && IsFlow(code, pc, Endif) && |lv.ifs| > 0
    ensures var a := Top(lv.ifs);
      && OpenIf(code, a, pc, lv.ifs)
      && InvIfs(ed, if JumpOf(code, a) == 0 then SetJump(code, a, pc) else SetJump(code, JumpOf(code, a), pc),
                pc + 1, lv.(ifs := Pop(lv.ifs)))
  {
    var a := Top(lv.ifs);
    assert OpenIf(code, lv.ifs[|lv.ifs| - 1], pc, lv.ifs);
    if JumpOf(code, a) == 0 {
      IfsEndifAt(ed, code, pc, lv, a);
    } else {
      IfsEndifAt(ed, code, pc, lv, JumpOf(code, a));
    }
  }

  lemma {:induction false} IfsEndifAt(ed: Edition, code: seq<Atom>, pc: nat, lv: Levels, x: nat)
    requires OpenStack(code, lv.ifs, pc, If) && InvIfs(ed, code, pc, lv) && IsFlow(code, pc, Endif) && |lv.ifs| > 0
    requires OpenIf(code, Top(lv.ifs), pc, lv.ifs)
    requires JumpOf(code, Top(lv.ifs)) == 0 ==> x == Top(lv.ifs)
    requires JumpOf(code, Top(lv.ifs)) != 0 ==> x == JumpOf(code, Top(lv.ifs))
    ensures InvIfs(ed, SetJump(code, x, pc), pc + 1, lv.(ifs := Pop(lv.ifs)))
  {
    var c := SetJump(code, x, pc);
    EndifSame(ed, code, c, pc, lv, x);
    EndifCloses(ed, code, c, pc, lv, x);
    EndifStack(ed, code, c, pc, lv, x);
    EndifOwners(ed, code, c, pc, lv, x);
    EndifCount(ed, code, c, pc, lv, x);
  }

  /** After `endif` the closed `if`s, now including the innermost, stay
      closed and the open ones stay open. */
  lemma {:induction false} EndifStack(ed: Edition, code: seq<Atom>, c: seq<Atom>, pc: nat, lv: Levels, x: nat)
    requires OpenStack(code, lv.ifs, pc, If) && InvIfs(ed, code, pc, lv) && IsFlow(code, pc, Endif) && |lv.ifs| > 0
    requires c == SetJump(code, x, pc) && SameIfs(code, c, pc, {Top(lv.ifs)})
    requires IfClosed(c, Top(lv.ifs), pc + 1) && Nested(c, Top(lv.ifs), Pop(lv.ifs))
    ensures ClosedOk(c, pc + 1, Pop(lv.ifs)) && OpenOk(c, pc + 1, Pop(lv.ifs))
  {
    BelowTop(code, lv.ifs, pc);
    EndifClosed(code, c, pc, lv.ifs);
    EndifStillOpen(code, c, pc, lv.ifs);
  }

  lemma {:induction false} EndifClosed(code: seq<Atom>, c: seq<Atom>, pc: nat, ifs: seq<nat>)
    requires |ifs| > 0 && ClosedOk(code, pc, ifs) && IsFlow(code, pc, Endif)
    requires SameIfs(code, c, pc, {Top(ifs)}) && Top(ifs) in ifs
    requires forall y :: y in Pop(ifs) ==> y in ifs
    requires IfClosed(c, Top(ifs), pc + 1) && Nested(c, Top(ifs), Pop(ifs))
    ensures ClosedOk(c, pc + 1, Pop(ifs))
  {
    KeepClosed(code, c, pc, ifs, Pop(ifs), {Top(ifs)});
    forall j | 0 <= j < pc + 1 && IsFlow(c, j, If) && j !in Pop(ifs)
      ensures IfClosed(c, j, pc + 1) && Nested(c, j, Pop(ifs))
    {
      assert j != pc;
      if j != Top(ifs) {
        assert j !in ifs;
      }
    }
  }

  lemma {:induction false} EndifStillOpen(code: seq<Atom>, c: seq<Atom>, pc: nat, ifs: seq<nat>)
    requires |ifs| > 0 && OpenOk(code, pc, ifs) && OpenStack(code, ifs, pc, If)
    requires SameIfs(code, c, pc, {Top(ifs)}) && Top(ifs) in ifs
    requires forall i :: 0 <= i < |ifs| - 1 ==> ifs[i] < Top(ifs)
    ensures OpenOk(c, pc + 1, Pop(ifs))
  {
    var ifs' := Pop(ifs);
    assert forall y :: y in ifs' && y < pc ==> y in ifs;
    KeepOpen(code, c, pc, ifs, ifs', {Top(ifs)});
    forall i | 0 <= i < |ifs'|
      ensures OpenIf(c, ifs'[i], pc + 1, ifs')
    {
      assert ifs'[i] == ifs[i] && ifs[i] in ifs && ifs[i] != Top(ifs);
    }
  }

  /** After `endif` every `else` still has its `if`, and every `endif`,
      the new one included, has its closed `if`. */
  lemma {:induction false} EndifOwners(ed: Edition, code: seq<Atom>, c: seq<Atom>, pc: nat, lv: Levels, x: nat)
    requires OpenStack(code, lv.ifs, pc, If) && InvIfs(ed, code, pc, lv) && IsFlow(code, pc, Endif) && |lv.ifs| > 0
    requires JumpOf(code, Top(lv.ifs)) == 0 ==> x == Top(lv.ifs)
    requires JumpOf(code, Top(lv.ifs)) != 0 ==> x == JumpOf(code, Top(lv.ifs))
    requires c == SetJump(code, x, pc) && SameIfs(code, c, pc, {Top(lv.ifs)})
    requires EndOf(c, Top(lv.ifs)) == pc
    ensures ElsesOwned(c, pc + 1) && EndifsOwned(c, pc + 1, Pop(lv.ifs))
  {
    var a, ifs, ifs' := Top(lv.ifs), lv.ifs, Pop(lv.ifs);
    assert IsFlow(code, a, If) && a < pc;
    BelowTop(code, ifs, pc);
    SetJumpFrame(code, x, pc);
    assert forall y :: y in ifs' && y < pc ==> y in ifs;
    assert ElsesOwned(c, pc + 1) by {
      assert c[a] == code[a] || JumpOf(code, a) == 0;
      KeepElses(code, c, pc, {a});
    }
    assert EndifsOwned(c, pc + 1, ifs') by {
      KeepEndifs(code, c, pc, ifs, ifs', {a});
      assert a !in ifs' && IsFlow(c, a, If);
      assert EndifOwned(c, pc, ifs');
    }
  }

  /** After `endif` no two `if`s share a target, and the count of `else`s
      still covers every open `if` that met one. */
  lemma {:induction false} EndifCount(ed: Edition, code: seq<Atom>, c: seq<Atom>, pc: nat, lv: Levels, x: nat)
    requires OpenStack(code, lv.ifs, pc, If) && InvIfs(ed, code, pc, lv) && IsFlow(code, pc, Endif) && |lv.ifs| > 0
    requires c == SetJump(code, x, pc) && SameIfs(code, c, pc, {Top(lv.ifs)})
    requires JumpOf(c, Top(lv.ifs)) == pc || JumpOf(c, Top(lv.ifs)) == JumpOf(code, Top(lv.ifs))
    ensures IfsDistinct(c, pc + 1) && CountOk(ed, c, lv.(ifs := Pop(lv.ifs)))
  {
    var a, ifs, ifs' := Top(lv.ifs), lv.ifs, Pop(lv.ifs);
    BelowTop(code, ifs, pc);
    assert IfsDistinct(c, pc + 1) by {
      KeepDistinct(ed, code, c, pc, lv, {a});
    }
    assert CountOk(ed, c, lv.(ifs := ifs')) by {
      forall i | 0 <= i < |ifs'|
        ensures JumpOf(c, ifs'[i]) == JumpOf(code, ifs[i])
      {
        assert ifs'[i] == ifs[i] && ifs[i] != a && ifs[i] < pc;
      }
    }
  }

  /** The jump and end of every `if` but the innermost survive `endif`:
      the `else` it sets belongs to no other `if`. */
  lemma {:induction false} EndifSame(ed: Edition, code: seq<Atom>, c: seq<Atom>, pc: nat, lv: Levels, x: nat)
    requires OpenStack(code, lv.ifs, pc, If) && InvIfs(ed, code, pc, lv) && |lv.ifs| > 0
    requires OpenIf(code, Top(lv.ifs), pc, lv.ifs)
    requires JumpOf(code, Top(lv.ifs)) == 0 ==> x == Top(lv.ifs)
    requires JumpOf(code, Top(lv.ifs)) != 0 ==> x == JumpOf(code, Top(lv.ifs))
    requires c == SetJump(code, x, pc)
    ensures SameIfs(code, c, pc, {Top(lv.ifs)})
  {
    var a := Top(lv.ifs);
    assert IsFlow(code, a, If) && a < pc;
    FrameSetJump(code, x, pc);
    forall j: nat | j < pc && IsFlow(code, j, If) && j != a
      ensures JumpOf(c, j) == JumpOf(code, j) && EndOf(c, j) == EndOf(code, j)
    {
      if x != a && IsFlow(code, JumpOf(code, j), Else) && JumpOf(code, j) == x {
        if j < a {
          assert IfsDistinct(code, pc) && JumpOf(code, j) == JumpOf(code, a);
        } else {
          assert IfsDistinct(code, pc) && JumpOf(code, a) == JumpOf(code, j);
        }
      }
      EndKept(code, c, {x}, j);
    }
  }

  /** The innermost `if` is closed at `pc`, and the `if`s inside it nest. */
  lemma {:induction false} EndifCloses(ed: Edition, code: seq<Atom>, c: seq<Atom>, pc: nat, lv: Levels, x: nat)
    requires OpenStack(code, lv.ifs, pc, If) && InvIfs(ed, code, pc, lv) && IsFlow(code, pc, Endif) && |lv.ifs| > 0
    requires OpenIf(code, Top(lv.ifs), pc, lv.ifs)
    requires JumpOf(code, Top(lv.ifs)) == 0 ==> x == Top(lv.ifs)
    requires JumpOf(code, Top(lv.ifs)) != 0 ==> x == JumpOf(code, Top(lv.ifs))
    requires c == SetJump(code, x, pc) && SameIfs(code, c, pc, {Top(lv.ifs)})
    ensures IfClosed(c, Top(lv.ifs), pc + 1) && Nested(c, Top(lv.ifs), Pop(lv.ifs)) && EndOf(c, Top(lv.ifs)) == pc
  {
    var a, ifs := Top(lv.ifs), lv.ifs;
    var e := JumpOf(code, a);
    assert IsFlow(code, a, If) && a < pc;
    BelowTop(code, ifs, pc);
    SetJumpFrame(code, x, pc);
    if e == 0 {
      assert JumpOf(c, a) == pc;
    } else {
      assert c[a] == code[a] && JumpOf(c, a) == e && JumpOf(c, e) == pc;
    }
    assert EndOf(c, a) == pc;
    forall j' | a < j' < pc && IsFlow(c, j', If)
      ensures j' !in Pop(ifs) && EndOf(c, j') < (if j' < JumpOf(c, a) then JumpOf(c, a) else pc)
    {
      assert j' !in ifs;
      assert IfClosed(code, j', pc);
      if e != 0 && j' < e {
        assert ThenNested(code, a, e, ifs);
      }
    }
  }

  /** `next`, `loop` and `break` set jumps outside the `if` family only. */
  lemma {:induction false} IfsLoopWord(ed: Edition, code: seq<Atom>, pc: nat, lv: Levels, lv': Levels, t: nat, both: bool)
    requires OpenStack(code, lv.ifs, pc, If) && InvIfs(ed, code, pc, lv)
    requires pc < |code| && code[pc].Flow? && code[pc].kw in {Next, Loop, Break}
    requires t < |code| && code[t].Flow? && code[t].kw in {For, While}
    requires lv'.ifs == lv.ifs && lv'.elses == lv.elses
    ensures InvIfs(ed, if both then SetJump(SetJump(code, pc, t), t, pc) else SetJump(code, pc, t), pc + 1, lv')
  {
    var c1 := SetJump(code, pc, t);
    FrameSetJump(code, pc, t);
    if both {
      FrameSetJump(c1, t, pc);
      FrameTrans(code, c1, SetJump(c1, t, pc), {pc}, {t});
      IfsFrame(ed, code, SetJump(c1, t, pc), {pc, t}, pc, lv, lv');
    } else {
      IfsFrame(ed, code, c1, {pc}, pc, lv, lv');
    }
  }

  /** `break` keeps both invariants. */
  lemma {:induction false} BreakKeeps(ed: Edition, code0: seq<Atom>, code: seq<Atom>, pc: nat, lv: Levels, t: nat)
    requires Inv(code0, code, pc, lv) && InvIfs(ed, code, pc, lv) && IsFlow(code, pc, Break)
    requires (t in lv.whiles && IsFlow(code, t, While)) || (t in lv.fors && IsFlow(code, t, For))
    ensures Inv(code0, SetJump(code, pc, t), pc + 1, lv) && InvIfs(ed, SetJump(code, pc, t), pc + 1, lv)
  {
    InvBreak(code0, code, pc, lv, t);
    IfsLoopWord(ed, code, pc, lv, lv, t, false);
  }

  /** With no `if` left open, the invariant is the `if` links of a resolved
      program. */
  lemma {:induction false} FinalLinks(ed: Edition, r: seq<Atom>, lv: Levels)
    requires InvIfs(ed, r, |r|, lv) && lv.ifs == []
    ensures IfsLinked(r)
  {
    forall k | 0 <= k < |r| && IsFlow(r, k, Else)
      ensures ElseJumps(r, k, |r|)
    {
      assert ElseOwned(r, k);
      var j :| 0 <= j < k && IsFlow(r, j, If) && JumpOf(r, j) == k;
      assert IfClosed(r, j, |r|);
    }
  }

  /** The conclusion about the rest of the resolution loop. */
  predicate LinkedIfResolved(code0: seq<Atom>, res: Resolution) {
    res.Resolved? ==> Linked(code0, res.code)
  }

  lemma {:induction false} LinksFrom(ed: Edition, code0: seq<Atom>, code: seq<Atom>, pc: nat, lv: Levels)
    requires Inv(code0, code, pc, lv) && InvIfs(ed, code, pc, lv)
    ensures LinkedIfResolved(code0, ResolveFrom(ed, code, pc, lv))
    decreases |code| - pc, 1
  {
    if pc >= |code| {
      StepEnd(ed, code, lv);
      if lv.ifs == [] {
        FinalLinks(ed, code, lv);
      }
    } else if !code[pc].Flow? {
      StepPlain(ed, code, pc, lv);
      InvPass(code0, code, pc, lv);
      IfsFrame(ed, code, code, {}, pc, lv, lv);
      LinksFrom(ed, code0, code, pc + 1, lv);
    } else if code[pc].kw in {For, While, If} {
      LinksOpen(ed, code0, code, pc, lv);
    } else if code[pc].kw in {Else, Endif} {
      LinksIf(ed, code0, code, pc, lv);
    } else if code[pc].kw in {Next, Loop} {
      LinksClose(ed, code0, code, pc, lv);
    } else {
      LinksBreak(ed, code0, code, pc, lv);
    }
  }

  lemma {:induction false} LinksOpen(ed: Edition, code0: seq<Atom>, code: seq<Atom>, pc: nat, lv: Levels)
    requires Inv(code0, code, pc, lv) && pc < |code| && code[pc].Flow? && code[pc].kw in {For, While, If}
    requires InvIfs(ed, code, pc, lv)
    ensures LinkedIfResolved(code0, ResolveFrom(ed, code, pc, lv))
    decreases |code| - pc, 0
  {
    StepOpen(ed, code, pc, lv);
    if pc >= 1 {
      match code[pc].kw
      case For =>
        InvFor(code0, code, pc, lv);
        IfsFrame(ed, code, code, {}, pc, lv, lv.(fors := lv.fors + [pc], last := ForLoop));
        LinksFrom(ed, code0, code, pc + 1, lv.(fors := lv.fors + [pc], last := ForLoop));
      case While =>
        InvWhile(code0, code, pc, lv);
        IfsFrame(ed, code, code, {}, pc, lv, lv.(whiles := lv.whiles + [pc], last := WhileLoop));
        LinksFrom(ed, code0, code, pc + 1, lv.(whiles := lv.whiles + [pc], last := WhileLoop));
      case If =>
        InvIf(code0, code, pc, lv);
        IfsIf(ed, code, pc, lv);
        LinksFrom(ed, code0, SetJump(code, pc, 0), pc + 1, lv.(ifs := lv.ifs + [pc]));
    }
  }

  lemma {:induction false} LinksIf(ed: Edition, code0: seq<Atom>, code: seq<Atom>, pc: nat, lv: Levels)
    requires Inv(code0, code, pc, lv) && pc < |code| && code[pc].Flow? && code[pc].kw in {Else, Endif}
    requires InvIfs(ed, code, pc, lv)
    ensures LinkedIfResolved(code0, ResolveFrom(ed, code, pc, lv))
    decreases |code| - pc, 0
  {
    if code[pc].kw == Else {
      StepElse(ed, code, pc, lv);
      if ElseAllowed(ed, code, lv) {
        IfsElse(ed, code, pc, lv);
        InvElse(code0, code, pc, lv);
        LinksFrom(ed, code0, SetJump(code, Top(lv.ifs), pc), pc + 1, lv.(elses := lv.elses + [Top(lv.ifs)]));
      }
    } else {
      StepEndif(ed, code, pc, lv);
      if |lv.ifs| > 0 {
        IfsEndif(ed, code, pc, lv);
        InvEndif(code0, code, pc, lv);
        var a := Top(lv.ifs);
        var c := if JumpOf(code, a) == 0 then SetJump(code, a, pc) else SetJump(code, JumpOf(code, a), pc);
        LinksFrom(ed, code0, c, pc + 1, lv.(ifs := Pop(lv.ifs)));
      }
    }
  }

  lemma {:induction false} LinksClose(ed: Edition, code0: seq<Atom>, code: seq<Atom>, pc: nat, lv: Levels)
    requires Inv(code0, code, pc, lv) && pc < |code| && code[pc].Flow? && code[pc].kw in {Next, Loop}
    requires InvIfs(ed, code, pc, lv)
    ensures LinkedIfResolved(code0, ResolveFrom(ed, code, pc, lv))
    decreases |code| - pc, 0
  {
    if code[pc].kw == Next {
      StepNext(ed, code, pc, lv);
      if |lv.fors| > 0 {
        InvNext(code0, code, pc, lv);
        IfsLoopWord(ed, code, pc, lv, lv.(fors := Pop(lv.fors)), Top(lv.fors), true);
        LinksFrom(ed, code0, SetJump(SetJump(code, pc, Top(lv.fors)), Top(lv.fors), pc), pc + 1, lv.(fors := Pop(lv.fors)));
      }
    } else {
      StepLoop(ed, code, pc, lv);
      if |lv.whiles| > 0 {
        InvLoop(code0, code, pc, lv);
        IfsLoopWord(ed, code, pc, lv, lv.(whiles := Pop(lv.whiles)), Top(lv.whiles), true);
        LinksFrom(ed, code0, SetJump(SetJump(code, pc, Top(lv.whiles)), Top(lv.whiles), pc), pc + 1, lv.(whiles := Pop(lv.whiles)));
      }
    }
  }

  lemma {:induction false} LinksBreak(ed: Edition, code0: seq<Atom>, code: seq<Atom>, pc: nat, lv: Levels)
    requires Inv(code0, code, pc, lv) && pc < |code| && code[pc].Flow? && code[pc].kw in {Break, Return}
    requires InvIfs(ed, code, pc, lv)
    ensures LinkedIfResolved(code0, ResolveFrom(ed, code, pc, lv))
    decreases |code| - pc, 0
  {
    if code[pc].kw == Return {
      StepReturn(ed, code, pc, lv);
      InvPass(code0, code, pc, lv);
      IfsFrame(ed, code, code, {}, pc, lv, lv);
      LinksFrom(ed, code0, code, pc + 1, lv);
    } else {
      StepBreak(ed, code, pc, lv);
      if (lv.last == WhileLoop && |lv.whiles| > 0) || (lv.last == ForLoop && |lv.fors| > 0) {
        var t := if lv.last == WhileLoop then Top(lv.whiles) else Top(lv.fors);
        BreakKeeps(ed, code0, code, pc, lv, t);
        LinksFrom(ed, code0, SetJump(code, pc, t), pc + 1, lv);
      }
    }
  }

  /** A program that resolves has the same atoms with jump addresses set so
      that `for`/`next` and `while`/`loop` point at each other, and every
      `break` jumps back to a loop head. Each `if` jumps forward to its own
      `else` or `endif`, no two `if`s share one, each `else` belongs to an
      `if` and jumps forward to an `endif`, and the `if`s nest. This holds
      under either edition's `else` rule. */
  lemma {:induction false} JumpsLinked(ed: Edition, code: seq<Atom>)
    ensures ResolveFrom(ed, code, 0, NoLevels).Resolved? ==>
      Linked(code, ResolveFrom(ed, code, 0, NoLevels).code)
  {
    LinksFrom(ed, code, code, 0, NoLevels);
    assert LinkedIfResolved(code, ResolveFrom(ed, code, 0, NoLevels));
  }

  /** Two shapes the `if` links rule out: an `else` that jumps back, and an
      `else` no `if` jumps to. */
  lemma {:induction false} StrayElseNotLinked()
    ensures !IfsLinked([Int(1), Flow(If, Some(3)), Int(2), Flow(Else, Some(0)), Int(3), Flow(Endif, None)])
    ensures !IfsLinked([Int(1), Flow(If, Some(5)), Int(2), Flow(Else, Some(0)), Int(3), Flow(Endif, None)])
  {
    var r1 := [Int(1), Flow(If, Some(3)), Int(2), Flow(Else, Some(0)), Int(3), Flow(Endif, None)];
    assert IsFlow(r1, 3, Else) && !ElseJumps(r1, 3, |r1|);
    var r2 := [Int(1), Flow(If, Some(5)), Int(2), Flow(Else, Some(0)), Int(3), Flow(Endif, None)];
    assert IsFlow(r2, 3, Else) && !ElseJumps(r2, 3, |r2|);
  }

  // Unmatched words.

  predicate NoFlow(code: seq<Atom>) {
    forall i :: 0 <= i < |code| ==> !code[i].Flow?
  }

  lemma {:induction false} PlainRun(ed: Edition, code: seq<Atom>, pc: nat, n: nat, lv: Levels)
    requires pc + n <= |code| && forall i :: pc <= i < pc + n ==> !code[i].Flow?
    ensures ResolveFrom(ed, code, pc, lv) == ResolveFrom(ed, code, pc + n, lv)
    decreases n
  {
    if n > 0 {
      StepPlain(ed, code, pc, lv);
      PlainRun(ed, code, pc + 1, n - 1, lv);
    }
  }

  /** A single flow word among plain atoms: the closing words and `else`
      have nothing to match, an opening word at the very start has no operand
      before it, and an unclosed `for` or `if` is reported at the end. An
      unclosed `while` is not reported, and `return` needs no partner. */
  lemma {:induction false} LoneWord(ed: Edition, pre: seq<Atom>, w: FlowWord, j: Option<nat>, post: seq<Atom>)
    requires NoFlow(pre) && NoFlow(post)
    ensures var r := ResolveFrom(ed, pre + [Flow(w, j)] + post, 0, NoLevels);
      && (w == Next ==> r == Unresolved("'next' without 'for'"))
      && (w == Loop ==> r == Unresolved("'loop' without 'while'"))
      && (w == Endif ==> r == Unresolved("'then' without 'if'"))
      && (w == Else ==> r == Unresolved("Unexpected 'else' statement!"))
      && (w == Break ==> r == Unresolved("'break' without 'for' or 'while'"))
      && (w in {For, If, While} && |pre| == 0 ==> r == Unresolved(NotEnoughData(FlowText(w))))
      && (w == For && |pre| > 0 ==> r == Unresolved("'for' without closing 'next''"))
      && (w == If && |pre| > 0 ==> r == Unresolved("'if' without closing 'endif''"))
      && (w == While && |pre| > 0 ==> r == Resolved(pre + [Flow(w, j)] + post))
      && (w == Return ==> r == Resolved(pre + [Flow(w, j)] + post))
  {
    var code, p := pre + [Flow(w, j)] + post, |pre|;
    LonePlace(pre, w, j, post, code, p);
    PlainRun(ed, code, 0, p, NoLevels);
    match w {
      case Next => StepNext(ed, code, p, NoLevels);
      case Loop => StepLoop(ed, code, p, NoLevels);
      case Endif => StepEndif(ed, code, p, NoLevels);
      case Else => StepElse(ed, code, p, NoLevels);
      case Break => StepBreak(ed, code, p, NoLevels);
      case Return => LoneReturn(ed, code, p);
      case For => if p == 0 { StepOpen(ed, code, p, NoLevels); } else { LoneFor(ed, code, p); }
      case While => if p == 0 { StepOpen(ed, code, p, NoLevels); } else { LoneWhile(ed, code, p); }
      case If => if p == 0 { StepOpen(ed, code, p, NoLevels); } else { LoneIf(ed, code, p); }
    }
  }

  /** Where the lone word sits, and no flow word around it. */
  lemma {:induction false} LonePlace(pre: seq<Atom>, w: FlowWord, j: Option<nat>, post: seq<Atom>, code: seq<Atom>, p: nat)
    requires NoFlow(pre) && NoFlow(post) && code == pre + [Flow(w, j)] + post && p == |pre|
    ensures p < |code| && code[p] == Flow(w, j)
    ensures forall i :: 0 <= i < p ==> !code[i].Flow?
    ensures forall i :: p < i < |code| ==> !code[i].Flow?
  {
    assert forall i :: 0 <= i < p ==> code[i] == pre[i];
    assert forall i :: p < i < |code| ==> code[i] == post[i - p - 1];
  }

  /** Plain atoms after `p` take resolution to the end. */
  lemma {:induction false} LoneTail(ed: Edition, code: seq<Atom>, p: nat, lv: Levels)
    requires p < |code| && forall i :: p < i < |code| ==> !code[i].Flow?
    ensures ResolveFrom(ed, code, p + 1, lv) == ResolveFrom(ed, code, |code|, lv)
  {
    PlainRun(ed, code, p + 1, |code| - p - 1, lv);
  }

  lemma {:induction false} LoneReturn(ed: Edition, code: seq<Atom>, p: nat)
    requires IsFlow(code, p, Return) && forall i :: p < i < |code| ==> !code[i].Flow?
    ensures ResolveFrom(ed, code, p, NoLevels) == Resolved(code)
  {
    StepReturn(ed, code, p, NoLevels);
    LoneTail(ed, code, p, NoLevels);
    StepEnd(ed, code, NoLevels);
  }

  lemma {:induction false} LoneFor(ed: Edition, code: seq<Atom>, p: nat)
    requires 0 < p && IsFlow(code, p, For) && forall i :: p < i < |code| ==> !code[i].Flow?
    ensures ResolveFrom(ed, code, p, NoLevels) == Unresolved("'for' without closing 'next''")
  {
    StepOpen(ed, code, p, NoLevels);
    var lv := NoLevels.(fors := [p], last := ForLoop);
    assert NoLevels.fors + [p] == [p];
    LoneTail(ed, code, p, lv);
    StepEnd(ed, code, lv);
  }

  lemma {:induction false} LoneWhile(ed: Edition, code: seq<Atom>, p: nat)
    requires 0 < p && IsFlow(code, p, While) && forall i :: p < i < |code| ==> !code[i].Flow?
    ensures ResolveFrom(ed, code, p, NoLevels) == Resolved(code)
  {
    StepOpen(ed, code, p, NoLevels);
    var lv := NoLevels.(whiles := [p], last := WhileLoop);
    assert NoLevels.whiles + [p] == [p];
    LoneTail(ed, code, p, lv);
    StepEnd(ed, code, lv);
  }

  lemma {:induction false} LoneIf(ed: Edition, code: seq<Atom>, p: nat)
    requires 0 < p && IsFlow(code, p, If) && forall i :: p < i < |code| ==> !code[i].Flow?
    ensures ResolveFrom(ed, code, p, NoLevels) == Unresolved("'if' without closing 'endif''")
  {
    StepOpen(ed, code, p, NoLevels);
    var c, lv := SetJump(code, p, 0), NoLevels.(ifs := [p]);
    assert NoLevels.ifs + [p] == [p];
    assert |c| == |code| && forall i :: p < i < |c| ==> c[i] == code[i];
    LoneTail(ed, c, p, lv);
    StepEnd(ed, c, lv);
  }
}
