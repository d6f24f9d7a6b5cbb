/** What an array literal parses to, stated without the element loop: the
    non-comment elements must all have the kind of the first one, and then
    the array holds their values in order; otherwise the literal is an error
    naming the first element that does not fit: the first element itself when
    it has no kind, else the first of another kind than the first's. */
module ArrayFacts {
  import opened Atoms
  import opened Numbers
  import opened Classifier

  /** The elements the loop does not skip, in order. */
  function Kept(items: seq<ElementInfo>): (r: seq<ElementInfo>)
    ensures forall i :: 0 <= i < |r| ==> r[i].Item?
    ensures |r| <= |items|
  {
    if |items| == 0 then []
    else if items[0].Skip? then Kept(items[1..])
    else [items[0]] + Kept(items[1..])
  }

  predicate OfKind(items: seq<ElementInfo>, k: Kind) {
    forall i :: 0 <= i < |items| ==> items[i].Item? && items[i].kind == Some(k)
  }

  /** The elements agree on one kind, the kind of the first one. */
  predicate Uniform(items: seq<ElementInfo>) {
    |items| > 0 && items[0].Item? && items[0].kind.Some? && OfKind(items, items[0].kind.value)
  }

  /** Element `i` is the first whose kind is not `k`. */
  predicate FirstOff(items: seq<ElementInfo>, k: Kind, i: int) {
    && 0 <= i < |items|
    && items[i].Item? && items[i].kind != Some(k)
    && forall j :: 0 <= j < i ==> items[j].Item? && items[j].kind == Some(k)
  }

  function Texts(items: seq<ElementInfo>): seq<string>
    requires forall i :: 0 <= i < |items| ==> items[i].Item?
  {
    seq(|items|, i requires 0 <= i < |items| => items[i].text)
  }

  /** The array of kind `k` whose elements are denoted by the texts `ts`. */
  function ArrayOf(k: Kind, ts: seq<string>): Atom {
    match k
    case KInt => IntArray(seq(|ts|, i requires 0 <= i < |ts| => Atoi(ts[i])))
    case KFloat => FloatArray(ts)
    case KBool => BoolArray(seq(|ts|, i requires 0 <= i < |ts| => ts[i] == "true"))
    case KStr => StrArray(seq(|ts|, i requires 0 <= i < |ts| => Unquote(ts[i])))
  }

  /** Adding an element extends the array by that element's value; the loop's
      initial `Error "Parse"` acts as the empty array. */
  lemma {:induction false} AddElementExtends(k: Kind, ts: seq<string>, el: string)
    ensures AddElement(ArrayOf(k, ts), k, el) == ArrayOf(k, ts + [el])
    ensures AddElement(Error("Parse"), k, el) == ArrayOf(k, [el])
  {
    var ts' := ts + [el];
    assert forall i :: 0 <= i < |ts| ==> ts'[i] == ts[i];
    match k
    case KInt =>
      assert ArrayOf(k, ts').ints == ArrayOf(k, ts).ints + [Atoi(el)];
    case KFloat =>
    case KBool =>
      assert ArrayOf(k, ts').bools == ArrayOf(k, ts).bools + [el == "true"];
    case KStr =>
      assert ArrayOf(k, ts').strs == ArrayOf(k, ts).strs + [Unquote(el)];
  }

  lemma {:induction false} TextsCons(item: ElementInfo, items: seq<ElementInfo>)
    requires item.Item? && forall i :: 0 <= i < |items| ==> items[i].Item?
    ensures Texts([item] + items) == [item.text] + Texts(items)
  {
    var a := [item] + items;
    assert forall i :: 1 <= i < |a| ==> a[i] == items[i - 1];
  }

  lemma {:induction false} KeptTail(items: seq<ElementInfo>)
    requires |items| > 0 && items[0].Item?
    ensures var kept := Kept(items);
      |kept| > 0 && kept[0] == items[0] && kept[1..] == Kept(items[1..])
  {
    assert Kept(items) == [items[0]] + Kept(items[1..]);
  }

  /** Once the kind is fixed, elements of that kind are appended in order. */
  lemma {:induction false} LoopUniform(items: seq<ElementInfo>, k: Kind, ts: seq<string>)
    requires OfKind(Kept(items), k)
    ensures ArrayLoop(items, Some(k), ArrayOf(k, ts)) == ArrayOf(k, ts + Texts(Kept(items)))
    decreases |items|
  {
    if |items| == 0 {
      assert ts + Texts(Kept(items)) == ts;
    } else if items[0].Skip? {
      LoopStep(items, k, ArrayOf(k, ts));
      LoopUniform(items[1..], k, ts);
    } else {
      LoopStep(items, k, ArrayOf(k, ts));
      KeptTail(items);
      var kept := Kept(items[1..]);
      assert items[0].kind == Some(k);
      OfKindTail(Kept(items), k);
      var el := items[0].text;
      AddElementExtends(k, ts, el);
      LoopUniform(items[1..], k, ts + [el]);
      TextsCons(items[0], kept);
      assert ts + [el] + Texts(kept) == ts + Texts(Kept(items));
    }
  }

  /** Once the kind is fixed, the first element of another kind (or of none)
      ends the loop with an error naming it. */
  lemma {:induction false} LoopMixed(items: seq<ElementInfo>, k: Kind, m: Atom)
    requires !OfKind(Kept(items), k)
    ensures exists i ::
      && FirstOff(Kept(items), k, i)
      && ArrayLoop(items, Some(k), m) == Error("Bad-array-el: " + Kept(items)[i].text)
  {
    var i := FirstOffending(items, k, m);
  }

  /** The offending element of `LoopMixed`, found by induction. */
  lemma {:induction false} FirstOffending(items: seq<ElementInfo>, k: Kind, m: Atom) returns (i: nat)
    requires !OfKind(Kept(items), k)
    ensures FirstOff(Kept(items), k, i)
    ensures ArrayLoop(items, Some(k), m) == Error("Bad-array-el: " + Kept(items)[i].text)
    decreases |items|
  {
    LoopStep(items, k, m);
    if items[0].Skip? {
      i := FirstOffending(items[1..], k, m);
    } else {
      KeptTail(items);
      if items[0].kind != Some(k) {
        i := 0;
      } else {
        OffTail(Kept(items), k);
        var j := FirstOffending(items[1..], k, AddElement(m, k, items[0].text));
        i := j + 1;
        FirstOffTail(Kept(items), k, j);
      }
    }
  }

  /** One turn of the element loop once the kind `k` is fixed. */
  lemma {:induction false} LoopStep(items: seq<ElementInfo>, k: Kind, m: Atom)
    requires |items| > 0
    ensures var r := ArrayLoop(items, Some(k), m);
      && (items[0].Skip? ==> r == ArrayLoop(items[1..], Some(k), m))
      && (items[0].Item? && items[0].kind != Some(k) ==> r == Error("Bad-array-el: " + items[0].text))
      && (items[0].Item? && items[0].kind == Some(k) ==> r == ArrayLoop(items[1..], Some(k), AddElement(m, k, items[0].text)))
  {
  }

  lemma {:induction false} OfKindTail(kept: seq<ElementInfo>, k: Kind)
    requires OfKind(kept, k) && |kept| > 0
    ensures OfKind(kept[1..], k)
  {
    forall i | 0 <= i < |kept| - 1 ensures kept[1..][i].Item? && kept[1..][i].kind == Some(k) {
      assert kept[1..][i] == kept[i + 1];
    }
  }

  lemma {:induction false} OffTail(kept: seq<ElementInfo>, k: Kind)
    requires !OfKind(kept, k) && |kept| > 0 && kept[0].Item? && kept[0].kind == Some(k)
    ensures !OfKind(kept[1..], k)
  {
    var i :| 0 <= i < |kept| && !(kept[i].Item? && kept[i].kind == Some(k));
    assert kept[1..][i - 1] == kept[i];
  }

  lemma {:induction false} FirstOffTail(kept: seq<ElementInfo>, k: Kind, j: int)
    requires |kept| > 0 && kept[0].Item? && kept[0].kind == Some(k) && FirstOff(kept[1..], k, j)
    ensures FirstOff(kept, k, j + 1)
  {
    forall l | 0 <= l < j + 1 ensures kept[l].Item? && kept[l].kind == Some(k) {
      if l > 0 { assert kept[l] == kept[1..][l - 1]; }
    }
  }

  /** From the loop's start: with no element left after comments the literal
      stays `Error "Parse"`; otherwise the first element fixes the kind. */
  lemma {:induction false} LoopFromStart(items: seq<ElementInfo>)
    ensures var kept := Kept(items);
      var r := ArrayLoop(items, None, Error("Parse"));
      && (|kept| == 0 ==> r == Error("Parse"))
      && (Uniform(kept) ==> r == ArrayOf(kept[0].kind.value, Texts(kept)))
      && (|kept| > 0 && kept[0].kind.None? ==> r == Error("Bad-array-el: " + kept[0].text))
      && (|kept| > 0 && kept[0].kind.Some? && !Uniform(kept) ==>
            exists i :: FirstOff(kept, kept[0].kind.value, i) && r == Error("Bad-array-el: " + kept[i].text))
    decreases |items|
  {
    if |items| == 0 {
    } else if items[0].Skip? {
      LoopFromStart(items[1..]);
    } else {
      KeptTail(items);
      var kept := Kept(items[1..]);
      match items[0].kind
      case None =>
      case Some(k) =>
        var el := items[0].text;
        AddElementExtends(k, [], el);
        assert [] + [el] == [el];
        if OfKind(kept, k) {
          LoopUniform(items[1..], k, [el]);
          TextsCons(items[0], kept);
          assert OfKind(Kept(items), k) by {
            assert forall i :: 1 <= i < |Kept(items)| ==> Kept(items)[i] == kept[i - 1];
          }
        } else {
          var i := FirstOffending(items[1..], k, AddElement(Error("Parse"), k, el));
          FirstOffTail(Kept(items), k, i);
          assert Kept(items)[i + 1] == kept[i];
        }
    }
  }

  /** An array literal is accepted exactly when its elements agree on one
      kind; it then holds their values in order. Otherwise it is an error
      naming the first element without a kind, or the first of another kind
      than the first element's, or `Parse` when it has no element. */
  lemma {:induction false} ParseArrayMeans(inner: string, symbols: map<string, Atom>, ed: Edition)
    ensures var kept := Kept(Items(inner, symbols, ed));
      var r := ParseArray(inner, symbols, ed);
      && (r.Error? <==> !Uniform(kept))
      && (Uniform(kept) ==> r == ArrayOf(kept[0].kind.value, Texts(kept)))
      && (|kept| == 0 ==> r == Error("Parse"))
      && (|kept| > 0 && kept[0].kind.None? ==> r == Error("Bad-array-el: " + kept[0].text))
      && (|kept| > 0 && kept[0].kind.Some? && !Uniform(kept) ==>
            exists i :: FirstOff(kept, kept[0].kind.value, i) && r == Error("Bad-array-el: " + kept[i].text))
  {
    LoopFromStart(Items(inner, symbols, ed));
  }
}
