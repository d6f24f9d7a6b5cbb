/** User-defined functions: `store_def`, which checks a definition and files
    it in the function table, and the first pass of `eval`, which lifts every
    `: name ... ;` definition out of a program and leaves the rest to run. */
module Definitions {
  import opened Numbers
  import opened Atoms

  /** The outcome of `store_def`: the new function table, or the message the
      source returns in place of the empty string. */
  datatype DefResult = Defined(funcs: map<string, seq<Atom>>) | DefError(msg: string)

  /** The name a definition starts with: a symbol reference, or the name of a
      function that already exists (which is then redefined). */
  function DefName(a: Atom): Option<string> {
    match a
    case Symbol(n) => Some(n)
    case Func(n) => Some(n)
    case _ => None
  }

  /** A name beginning with the `?` or `!` that mark show and delete words.
      (Reading the first character of an empty std::string gives the
      terminating NUL, which is neither.) */
  predicate MarkedName(name: string) {
    |name| > 0 && (name[0] == '?' || name[0] == '!')
  }

  /** `store_def(funcDef)`: at least a name and one atom, the name a symbol
      or function reference, not reserved, not starting with `?` or `!`. */
  function StoreDef(def: seq<Atom>, funcs: map<string, seq<Atom>>): (r: DefResult)
    ensures r.Defined? <==>
      |def| >= 2 && DefName(def[0]).Some? && !IsReserved(DefName(def[0]).value)
      && !MarkedName(DefName(def[0]).value)
    ensures r.Defined? ==> r.funcs == funcs[DefName(def[0]).value := def[1..]]
    ensures |def| < 2 ==> r == DefError("Func-Def-Too-Short: " + IntToString(|def|))
  {
    if |def| < 2 then DefError("Func-Def-Too-Short: " + IntToString(|def|))
    else match DefName(def[0])
      case None => DefError("Func-Def-First-Element-Must-be-Symbol")
      case Some(name) =>
        if IsReserved(name) then DefError("Func-Def-Name-is-reserved")
        else if MarkedName(name) then DefError("Illegal-Func-Def-name-first-char")
        else Defined(funcs[name := def[1..]])
  }

  /** The first pass of `eval`: the atoms left to run, the function table
      after every definition met, and the errors pushed (any error aborts the
      evaluation). */
  datatype Extracted = Extracted(body: seq<Atom>, funcs: map<string, seq<Atom>>, errors: seq<string>)

  function Extract(code: seq<Atom>, funcs: map<string, seq<Atom>>): Extracted {
    ExtractFrom(code, false, [], [], funcs)
  }

  /** The extraction loop over the atoms still to read. `inDef` says whether
      a `:` is open and `def` holds the atoms read since it. A `;` outside a
      definition and a `:` inside one stop the pass; a `:` left open at the
      end is reported after it, which the nested `:` also leads to. */
  function ExtractFrom(rest: seq<Atom>, inDef: bool, def: seq<Atom>, body: seq<Atom>,
                       funcs: map<string, seq<Atom>>): Extracted
    decreases |rest|
  {
    if |rest| == 0 then Extracted(body, funcs, if inDef then ["Unterminated-func-def"] else [])
    else if !inDef then
      if rest[0] == DefStart then ExtractFrom(rest[1..], true, def, body, funcs)
      else if rest[0] == DefEnd then Extracted(body, funcs, ["Def-End-Outside-Def"])
      else ExtractFrom(rest[1..], false, def, body + [rest[0]], funcs)
    else
      if rest[0] == DefStart then Extracted(body, funcs, ["Nested-Def-Illegal", "Unterminated-func-def"])
      else if rest[0] == DefEnd then
        match StoreDef(def, funcs)
        case DefError(msg) => Extracted(body, funcs, [msg])
        case Defined(funcs') => ExtractFrom(rest[1..], false, [], body, funcs')
      else ExtractFrom(rest[1..], true, def + [rest[0]], body, funcs)
  }

  predicate NoDefWords(code: seq<Atom>) {
    forall i :: 0 <= i < |code| ==> code[i] != DefStart && code[i] != DefEnd
  }

  /** Outside a definition, atoms other than the delimiters are kept in order. */
  lemma {:induction false} ExtractPlain(rest: seq<Atom>, def: seq<Atom>, body: seq<Atom>, funcs: map<string, seq<Atom>>)
    requires NoDefWords(rest)
    ensures ExtractFrom(rest, false, def, body, funcs) == Extracted(body + rest, funcs, [])
    decreases |rest|
  {
    if |rest| == 0 {
      assert body + rest == body;
    } else {
      assert body + [rest[0]] + rest[1..] == body + rest;
      ExtractPlain(rest[1..], def, body + [rest[0]], funcs);
    }
  }

  /** A program without definitions runs unchanged and leaves the table alone. */
  lemma {:induction false} NoDefinitions(code: seq<Atom>, funcs: map<string, seq<Atom>>)
    requires NoDefWords(code)
    ensures Extract(code, funcs) == Extracted(code, funcs, [])
  {
    ExtractPlain(code, [], [], funcs);
    assert [] + code == code;
  }

  /** Inside a definition, atoms other than the delimiters are collected. */
  lemma {:induction false} CollectDef(body: seq<Atom>, rest: seq<Atom>, def: seq<Atom>, kept: seq<Atom>, funcs: map<string, seq<Atom>>)
    requires NoDefWords(body)
    ensures ExtractFrom(body + rest, true, def, kept, funcs) == ExtractFrom(rest, true, def + body, kept, funcs)
    decreases |body|
  {
    if |body| == 0 {
      assert body + rest == rest;
      assert def + body == def;
    } else {
      assert (body + rest)[0] == body[0];
      assert (body + rest)[1..] == body[1..] + rest;
      assert def + [body[0]] + body[1..] == def + body;
      CollectDef(body[1..], rest, def + [body[0]], kept, funcs);
    }
  }

  /** One well-formed definition between plain code: the definition is
      filed under its name and removed, and the code around it is kept. */
  lemma {:induction false} OneDefinition(pre: seq<Atom>, name: string, def: seq<Atom>, post: seq<Atom>, funcs: map<string, seq<Atom>>)
    requires NoDefWords(pre) && NoDefWords(def) && NoDefWords(post)
    requires |def| > 0 && !IsReserved(name) && !MarkedName(name)
    ensures Extract(pre + [DefStart, Symbol(name)] + def + [DefEnd] + post, funcs)
         == Extracted(pre + post, funcs[name := def], [])
  {
    var inner := [Symbol(name)] + def;
    var tail := [DefEnd] + post;
    var code := pre + [DefStart, Symbol(name)] + def + [DefEnd] + post;
    assert code == pre + ([DefStart] + (inner + tail));
    assert NoDefWords(inner) by {
      forall i | 0 <= i < |inner| ensures inner[i] != DefStart && inner[i] != DefEnd {
        if i > 0 { assert inner[i] == def[i - 1]; }
      }
    }
    calc {
      ExtractFrom(code, false, [], [], funcs);
      { ExtractPrefix(pre, [DefStart] + (inner + tail), funcs); }
      ExtractFrom([DefStart] + (inner + tail), false, [], pre, funcs);
      { assert ([DefStart] + (inner + tail))[1..] == inner + tail; }
      ExtractFrom(inner + tail, true, [], pre, funcs);
      { CollectDef(inner, tail, [], pre, funcs); assert [] + inner == inner; }
      ExtractFrom(tail, true, inner, pre, funcs);
      { assert inner[1..] == def && DefName(inner[0]) == Some(name);
        assert tail[1..] == post; }
      ExtractFrom(post, false, [], pre, funcs[name := def]);
      { ExtractPlain(post, [], pre, funcs[name := def]); }
      Extracted(pre + post, funcs[name := def], []);
    }
  }

  /** Plain code before the first delimiter is kept and the pass goes on. */
  lemma {:induction false} ExtractPrefix(pre: seq<Atom>, rest: seq<Atom>, funcs: map<string, seq<Atom>>)
    requires NoDefWords(pre)
    ensures ExtractFrom(pre + rest, false, [], [], funcs) == ExtractFrom(rest, false, [], pre, funcs)
  {
    ExtractPrefixFrom(pre, rest, [], funcs);
    assert [] + pre == pre;
  }

  lemma {:induction false} ExtractPrefixFrom(pre: seq<Atom>, rest: seq<Atom>, body: seq<Atom>, funcs: map<string, seq<Atom>>)
    requires NoDefWords(pre)
    ensures ExtractFrom(pre + rest, false, [], body, funcs) == ExtractFrom(rest, false, [], body + pre, funcs)
    decreases |pre|
  {
    if |pre| == 0 {
      assert pre + rest == rest;
      assert body + pre == body;
    } else {
      assert (pre + rest)[0] == pre[0];
      assert (pre + rest)[1..] == pre[1..] + rest;
      assert body + [pre[0]] + pre[1..] == body + pre;
      ExtractPrefixFrom(pre[1..], rest, body + [pre[0]], funcs);
    }
  }

  /** A `;` with no open definition stops the pass with one error. */
  lemma {:induction false} StrayDefEnd(pre: seq<Atom>, post: seq<Atom>, funcs: map<string, seq<Atom>>)
    requires NoDefWords(pre)
    ensures Extract(pre + [DefEnd] + post, funcs).errors == ["Def-End-Outside-Def"]
  {
    assert pre + [DefEnd] + post == pre + ([DefEnd] + post);
    ExtractPrefix(pre, [DefEnd] + post, funcs);
  }

  /** A second `:` before the `;` reports the nesting and then, because the
      outer definition is still open, the missing `;` as well. */
  lemma {:induction false} NestedDefinition(pre: seq<Atom>, def: seq<Atom>, post: seq<Atom>, funcs: map<string, seq<Atom>>)
    requires NoDefWords(pre) && NoDefWords(def)
    ensures Extract(pre + [DefStart] + def + [DefStart] + post, funcs).errors
         == ["Nested-Def-Illegal", "Unterminated-func-def"]
  {
    var tail := [DefStart] + post;
    assert pre + [DefStart] + def + [DefStart] + post == pre + ([DefStart] + (def + tail));
    ExtractPrefix(pre, [DefStart] + (def + tail), funcs);
    assert ([DefStart] + (def + tail))[1..] == def + tail;
    CollectDef(def, tail, [], pre, funcs);
  }

  /** A `:` never closed reports the missing `;`, and nothing is defined. */
  lemma {:induction false} UnterminatedDefinition(pre: seq<Atom>, def: seq<Atom>, funcs: map<string, seq<Atom>>)
    requires NoDefWords(pre) && NoDefWords(def)
    ensures Extract(pre + [DefStart] + def, funcs) == Extracted(pre, funcs, ["Unterminated-func-def"])
  {
    assert pre + [DefStart] + def == pre + ([DefStart] + (def + []));
    ExtractPrefix(pre, [DefStart] + (def + []), funcs);
    assert ([DefStart] + (def + []))[1..] == def + [];
    CollectDef(def, [], [], pre, funcs);
  }

  /** A definition rejected by `store_def` stops the pass with its message,
      and the function table is left as it was. */
  lemma {:induction false} RejectedDefinition(pre: seq<Atom>, def: seq<Atom>, post: seq<Atom>, funcs: map<string, seq<Atom>>)
    requires NoDefWords(pre) && NoDefWords(def)
    requires StoreDef(def, funcs).DefError?
    ensures Extract(pre + [DefStart] + def + [DefEnd] + post, funcs)
         == Extracted(pre, funcs, [StoreDef(def, funcs).msg])
  {
    var tail := [DefEnd] + post;
    var open := [DefStart] + (def + tail);
    assert pre + [DefStart] + def + [DefEnd] + post == pre + open;
    ExtractPrefix(pre, open, funcs);
    assert open[1..] == def + tail;
    CollectDef(def, tail, [], pre, funcs);
    assert [] + def == def;
    ClosingRejected(def, post, pre, funcs);
  }

  /** The `;` of a definition `store_def` rejects ends the pass. */
  lemma {:induction false} ClosingRejected(def: seq<Atom>, post: seq<Atom>, kept: seq<Atom>, funcs: map<string, seq<Atom>>)
    requires StoreDef(def, funcs).DefError?
    ensures ExtractFrom([DefEnd] + post, true, def, kept, funcs) == Extracted(kept, funcs, [StoreDef(def, funcs).msg])
  {
    assert ([DefEnd] + post)[0] == DefEnd;
  }
}
