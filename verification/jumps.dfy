/** The second pass of `eval`: flow-control words are matched and each gets
    the address it jumps to. `for`/`next` and `while`/`loop` are linked both
    ways, `if` jumps to its `else` (or its `endif`), `else` to the `endif`,
    and `break` to the head of the innermost loop of the kind last opened. */
module Jumps {
  import opened Atoms

  /** The kind of loop opened most recently, the source's `last_loop`. */
  datatype LoopKind = NoLoop | WhileLoop | ForLoop

  /** The open `for`, `if`, `while` addresses, the `if`s that have met an
      `else` (`else_level`), and the last loop kind opened. */
  datatype Levels = Levels(fors: seq<nat>, ifs: seq<nat>, elses: seq<nat>, whiles: seq<nat>, last: LoopKind)

  datatype Resolution = Resolved(code: seq<Atom>) | Unresolved(msg: string)

  function Top(s: seq<nat>): nat
    requires |s| > 0
  {
    s[|s| - 1]
  }

  function Pop(s: seq<nat>): seq<nat>
    requires |s| > 0
  {
    s[..|s| - 1]
  }

  /** `newFunc[i].jump_address = j`. Resolution only ever names flow words of
      the program (`JumpsLinked` shows it); other addresses are left alone. */
  function SetJump(code: seq<Atom>, i: nat, j: nat): seq<Atom> {
    if i < |code| && code[i].Flow? then code[i := Flow(code[i].kw, Some(j))] else code
  }

  /** The jump address stored at `i`; an unset address reads as 0 here, the
      value `if` is given when it is opened. */
  function JumpOf(code: seq<Atom>, i: nat): nat {
    if i < |code| && code[i].Flow? && code[i].jump.Some? then code[i].jump.value else 0
  }

  predicate IsFlow(code: seq<Atom>, i: nat, w: FlowWord) {
    i < |code| && code[i].Flow? && code[i].kw == w
  }

  function NotEnoughData(word: string): string {
    "Not enough stack data before '" + word + "' instruction (1 required)"
  }

  /** When an `else` is accepted. As written, the source counts: there must
      be exactly one more open `if` than `else`s recorded, and `else_level`
      is never popped. Corrected, an `else` is accepted exactly when the
      innermost open `if` has none yet. */
  predicate ElseAllowed(ed: Edition, code: seq<Atom>, lv: Levels) {
    match ed
    case AsWritten => |lv.ifs| == |lv.elses| + 1
    case Corrected => |lv.ifs| > 0 && JumpOf(code, Top(lv.ifs)) == 0
  }

  /** The resolution loop from address `pc` on. */
  function ResolveFrom(ed: Edition, code: seq<Atom>, pc: nat, lv: Levels): Resolution
    decreases |code| - pc
  {
    if pc >= |code| then
      if |lv.fors| > 0 then Unresolved("'for' without closing 'next''")
      else if |lv.ifs| > 0 then Unresolved("'if' without closing 'endif''")
      else Resolved(code)
    else if !code[pc].Flow? then ResolveFrom(ed, code, pc + 1, lv)
    else match code[pc].kw
      case For =>
        if pc < 1 then Unresolved(NotEnoughData("for"))
        else ResolveFrom(ed, code, pc + 1, lv.(fors := lv.fors + [pc], last := ForLoop))
      case Next =>
        if |lv.fors| == 0 then Unresolved("'next' without 'for'")
        else
          var f := Top(lv.fors);
          ResolveFrom(ed, SetJump(SetJump(code, pc, f), f, pc), pc + 1, lv.(fors := Pop(lv.fors)))
      case If =>
        if pc < 1 then Unresolved(NotEnoughData("if"))
        else ResolveFrom(ed, SetJump(code, pc, 0), pc + 1, lv.(ifs := lv.ifs + [pc]))
      case Else =>
        if !ElseAllowed(ed, code, lv) then Unresolved("Unexpected 'else' statement!")
        else
          var a := Top(lv.ifs);
          ResolveFrom(ed, SetJump(code, a, pc), pc + 1, lv.(elses := lv.elses + [a]))
      case Endif =>
        if |lv.ifs| == 0 then Unresolved("'then' without 'if'")
        else
          var a := Top(lv.ifs);
          var code' := if JumpOf(code, a) == 0 then SetJump(code, a, pc) else SetJump(code, JumpOf(code, a), pc);
          ResolveFrom(ed, code', pc + 1, lv.(ifs := Pop(lv.ifs)))
      case While =>
        if pc < 1 then Unresolved(NotEnoughData("while"))
        else ResolveFrom(ed, code, pc + 1, lv.(whiles := lv.whiles + [pc], last := WhileLoop))
      case Loop =>
        if |lv.whiles| == 0 then Unresolved("'loop' without 'while'")
        else
          var w := Top(lv.whiles);
          ResolveFrom(ed, SetJump(SetJump(code, pc, w), w, pc), pc + 1, lv.(whiles := Pop(lv.whiles)))
      case Break =>
        (match lv.last
         case WhileLoop =>
           if |lv.whiles| == 0 then Unresolved("'break' without 'while'")
           else ResolveFrom(ed, SetJump(code, pc, Top(lv.whiles)), pc + 1, lv)
         case ForLoop =>
           if |lv.fors| == 0 then Unresolved("'break' without 'for'")
           else ResolveFrom(ed, SetJump(code, pc, Top(lv.fors)), pc + 1, lv)
         case NoLoop => Unresolved("'break' without 'for' or 'while'"))
      case Return => ResolveFrom(ed, code, pc + 1, lv)
  }

  const NoLevels := Levels([], [], [], [], NoLoop)

  /** The resolution pass of `eval`, under the `else` rule of an edition. */
  function Resolve(ed: Edition, code: seq<Atom>): Resolution {
    ResolveFrom(ed, code, 0, NoLevels)
  }
}
