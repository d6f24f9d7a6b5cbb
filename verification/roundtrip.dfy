/** Rendering and parsing: the text `IlAtom::str` writes for an integer, a
    boolean, a float, a string and a non-empty integer array parses back to
    the same atom. The rendering of arrays puts a space after `[`, which the
    tokenizer as written turns into part of the first element
    (`ArrayRenderAsWritten`, `IntArrayRejectedAsWritten`). */
module RoundTrip {
  import opened Text
  import opened Numbers
  import opened Atoms
  import opened Lexer
  import opened Classifier
  import opened LexicalFacts
  import opened ScanFacts
  import opened ArrayFacts

  /** A text that does not begin with white space and splits into one token
      parses to that token's atom under either edition. */
  lemma {:induction false} ParseSingle(text: string, w: string, symbols: map<string, Atom>, funcs: map<string, seq<Atom>>, ed: Edition)
    requires Split(text) == [w] && |text| > 0 && !IsWhite(text[0])
    ensures Parse(text, symbols, funcs, ed) == [ParseTok(w, symbols, funcs, ed)]
  {
    SplitAgrees(text);
  }

  lemma {:induction false} LeadingSpace(rest: string, acc: seq<string>)
    ensures Scan(" " + rest, WhiteSpace, "", acc) == Scan(rest, WhiteSpace, "", acc)
  {
    assert (" " + rest)[0] == ' ' && (" " + rest)[1..] == rest;
  }

  lemma {:induction false} TrailingSpace(acc: seq<string>)
    ensures Scan(" ", WhiteSpace, "", acc) == acc
  {
    assert " "[1..] == "";
  }

  /** A token that starts with neither a digit nor `-` is no number. */
  lemma {:induction false} NoNumber(w: string)
    requires |w| > 0 && !IsDigit(w[0]) && w[0] != '-'
    ensures !IsInt(w, false) && !IsFloat(w)
  {
    if IsInt(w, false) {
      IsIntHead(w, false);
    }
    if IsFloat(w) {
      IsFloatHead(w);
    }
  }

  /** A token in quotes is a string literal, whatever it holds. */
  lemma {:induction false} ParseTokQuoted(w: string, symbols: map<string, Atom>, funcs: map<string, seq<Atom>>, ed: Edition)
    requires |w| >= 2 && w[0] == '"' && w[|w| - 1] == '"'
    ensures ParseTok(w, symbols, funcs, ed) == Str(w[1..|w| - 1])
  {
    NoNumber(w);
    assert !IsComment(w) && !IsDefWord(w) && !IsBool(w) && IsString(w);
  }

  /** A token in brackets is an array literal. */
  lemma {:induction false} ParseTokBracketed(w: string, symbols: map<string, Atom>, funcs: map<string, seq<Atom>>, ed: Edition)
    requires |w| >= 2 && w[0] == '[' && w[|w| - 1] == ']'
    ensures ParseTok(w, symbols, funcs, ed) == ParseArray(w[1..|w| - 1], symbols, ed)
  {
    NoNumber(w);
    assert !IsComment(w) && !IsDefWord(w) && !IsBool(w) && !IsString(w) && IsArrayText(w);
  }

  lemma {:induction false} IntTextBareword(i: int)
    ensures Bareword(IntToString(i))
  {
    IntToStringText(i);
    IntTextCharset(IntToString(i));
  }

  /** An integer's text parses back to the integer. */
  lemma {:induction false} IntRoundTrip(i: int, symbols: map<string, Atom>, funcs: map<string, seq<Atom>>, ed: Edition)
    ensures Parse(Render(Int(i)), symbols, funcs, ed) == [Int(i)]
  {
    var w := IntToString(i);
    IntTextBareword(i);
    SplitBareword(w);
    IntToStringIsInt(i);
    IsIntHead(w, false);
    AtoiInvertsIntToString(i);
    ParseSingle(w, w, symbols, funcs, ed);
  }

  /** `true` and `false` parse back to the boolean they render. */
  lemma {:induction false} BoolRoundTrip(b: bool, symbols: map<string, Atom>, funcs: map<string, seq<Atom>>, ed: Edition)
    ensures Parse(Render(Bool(b)), symbols, funcs, ed) == [Bool(b)]
  {
    var w := BoolText(b);
    assert Render(Bool(b)) == w;
    assert Bareword(w);
    SplitBareword(w);
    ParseSingle(w, w, symbols, funcs, ed);
    ParseTokBool(b, symbols, funcs, ed);
  }

  /** `true` and `false` are neither numbers nor comments nor definition
      words, so they classify as BOOL. */
  lemma {:induction false} ParseTokBool(b: bool, symbols: map<string, Atom>, funcs: map<string, seq<Atom>>, ed: Edition)
    ensures ParseTok(BoolText(b), symbols, funcs, ed) == Bool(b)
  {
    var w := BoolText(b);
    assert !IsInt(w, false) by {
      IsIntMeans(w, false);
      assert !IsDigit(w[0]);
    }
    assert '.' !in w;
    assert !IsComment(w) && !IsDefWord(w) && !IsFloat(w) && IsBool(w);
  }

  /** A float literal is a single bareword. */
  lemma {:induction false} FloatBareword(t: string)
    requires FloatText(t)
    ensures IsFloat(t) && Bareword(t)
  {
    IsFloatMeans(t);
    assert IsFloat(t);
    IsFloatHead(t);
    NumberOpensBare(t);
    FloatTextNoWhite(t);
  }

  /** A token starting with a digit or `-` is scanned as a bareword. */
  lemma {:induction false} NumberOpensBare(t: string)
    requires |t| > 0 && (IsDigit(t[0]) || t[0] == '-')
    ensures Opening(t[0]) == Bare
  {
  }

  /** A float literal is classified as a FLOAT: it is neither a comment,
      nor a definition word, nor an integer. */
  lemma {:induction false} ParseTokFloat(t: string, symbols: map<string, Atom>, funcs: map<string, seq<Atom>>, ed: Edition)
    requires IsFloat(t)
    ensures ParseTok(t, symbols, funcs, ed) == Float(t)
  {
    IsFloatHead(t);
    assert !IsComment(t) && !IsDefWord(t);
  }

  /** Float text is rendered as itself and parses back to the same float. */
  lemma {:induction false} FloatRoundTrip(t: string, symbols: map<string, Atom>, funcs: map<string, seq<Atom>>, ed: Edition)
    requires FloatText(t)
    ensures Parse(Render(Float(t)), symbols, funcs, ed) == [Float(t)]
  {
    FloatBareword(t);
    SplitBareword(t);
    ParseTokFloat(t, symbols, funcs, ed);
    ParseSingle(t, t, symbols, funcs, ed);
  }

  /** A rendered string is its text in quotes with each newline written as
      `\n`. */
  lemma {:induction false} QuoteStringParts(s: string)
    ensures QuoteString(s) == "\"" + ReplaceAll(s, "\n", "\\n") + "\""
  {
    ReplaceCharConcat("\"" + s, "\"", "\n", "\\n");
    ReplaceCharConcat("\"", s, "\n", "\\n");
  }

  /** The rendering of a string without quotes or backslashes is a single
      token: the string in quotes, newlines included. */
  lemma {:induction false} SplitQuoted(s: string)
    requires '"' !in s && '\\' !in s
    ensures Split(QuoteString(s)) == ["\"" + s + "\""]
  {
    var body := ReplaceAll(s, "\n", "\\n");
    QuoteStringParts(s);
    var text := QuoteString(s) + " ";
    assert text == "\"" + (body + "\"" + " ");
    assert text[0] == '"' && text[1..] == body + "\"" + " ";
    assert Scan(text, WhiteSpace, "", []) == Scan(body + "\"" + " ", InString, "\"", []);
    StringBodyScan(s, "\"", " ", []);
    TrailingSpace([] + ["\"" + s + "\""]);
  }

  /** A string without quotes or backslashes parses back from its rendering,
      newlines included: the renderer writes each as `\n` and the tokenizer
      reads `\n` as a newline. */
  lemma {:induction false} StrRoundTrip(s: string, symbols: map<string, Atom>, funcs: map<string, seq<Atom>>, ed: Edition)
    requires '"' !in s && '\\' !in s
    ensures Parse(Render(Str(s)), symbols, funcs, ed) == [Str(s)]
  {
    var w := "\"" + s + "\"";
    SplitQuoted(s);
    ParseSingle(Render(Str(s)), w, symbols, funcs, ed);
    ParseTokQuoted(w, symbols, funcs, ed);
    assert w[1..|w| - 1] == s;
  }

  /** The texts of integers, in order. */
  function IntTexts(xs: seq<int>): (r: seq<string>)
    ensures |r| == |xs|
  {
    if |xs| == 0 then [] else [IntToString(xs[0])] + IntTexts(xs[1..])
  }

  lemma {:induction false} IntTextsAt(xs: seq<int>, i: nat)
    requires i < |xs|
    ensures IntTexts(xs)[i] == IntToString(xs[i])
    decreases i
  {
    assert IntTexts(xs) == [IntToString(xs[0])] + IntTexts(xs[1..]);
    if i > 0 {
      IntTextsAt(xs[1..], i - 1);
    }
  }

  /** The texts of integers, each followed by a space. */
  lemma {:induction false} IntItemsSpaced(xs: seq<int>)
    ensures IntItems(xs) == Spaced(IntTexts(xs))
    decreases |xs|
  {
    if |xs| > 0 {
      IntItemsSpaced(xs[1..]);
      var ws := IntTexts(xs);
      assert ws == [IntToString(xs[0])] + IntTexts(xs[1..]);
      assert ws[0] == IntToString(xs[0]) && ws[1..] == IntTexts(xs[1..]);
    }
  }

  lemma {:induction false} IntItemsCharset(xs: seq<int>)
    ensures forall k :: 0 <= k < |IntItems(xs)| ==> IsDigit(IntItems(xs)[k]) || IntItems(xs)[k] == '-' || IntItems(xs)[k] == ' '
    decreases |xs|
  {
    if |xs| > 0 {
      var w := IntToString(xs[0]);
      IntToStringIsInt(xs[0]);
      IsIntMeans(w, false);
      IntTextCharset(w);
      IntItemsCharset(xs[1..]);
      var r := IntItems(xs);
      assert r == w + " " + IntItems(xs[1..]);
      forall k | 0 <= k < |r|
        ensures IsDigit(r[k]) || r[k] == '-' || r[k] == ' '
      {
        if k < |w| {
          assert r[k] == w[k];
        } else if k > |w| {
          assert r[k] == IntItems(xs[1..])[k - |w| - 1];
        }
      }
    }
  }

  /** An array token runs to the first `]`. */
  lemma {:induction false} ArrayTokenScan(body: string, rest: string, tok: string, acc: seq<string>)
    requires ']' !in body
    ensures Scan(body + "]" + rest, InArray, tok, acc) == Scan(rest, WhiteSpace, "", acc + [tok + body + "]"])
    decreases |body|
  {
    var t := body + "]" + rest;
    if |body| == 0 {
      assert t[0] == ']' && t[1..] == rest;
      assert tok + body + "]" == tok + "]";
    } else {
      assert t[0] == body[0] && t[1..] == body[1..] + "]" + rest;
      assert body[0] in body;
      assert forall x :: x in body[1..] ==> x in body;
      ArrayTokenScan(body[1..], rest, tok + [body[0]], acc);
      assert tok + [body[0]] + body[1..] + "]" == tok + body + "]";
    }
  }

  /** The elements of a rendered integer array, split again, are the
      integers' texts. */
  lemma {:induction false} SplitIntItems(xs: seq<int>)
    ensures Split(" " + IntItems(xs)) == IntTexts(xs)
  {
    var ws := IntTexts(xs);
    IntItemsSpaced(xs);
    forall i | 0 <= i < |ws| ensures Bareword(ws[i]) {
      IntTextsAt(xs, i);
      IntTextBareword(xs[i]);
    }
    assert " " + IntItems(xs) + " " == " " + (Spaced(ws) + " ");
    LeadingSpace(Spaced(ws) + " ", []);
    SpacedScan(ws, " ", []);
    assert [] + ws == ws;
    TrailingSpace(ws);
  }

  /** The elements of a rendered integer array hold no `]`. */
  lemma {:induction false} NoBracketInItems(xs: seq<int>)
    ensures ']' !in " " + IntItems(xs)
  {
    var items := IntItems(xs);
    IntItemsCharset(xs);
    forall k | 0 <= k < |" " + items| ensures (" " + items)[k] != ']' {
      if k > 0 {
        assert (" " + items)[k] == items[k - 1];
      }
    }
  }

  /** The rendering of an integer array is a single token. */
  lemma {:induction false} SplitIntArray(xs: seq<int>)
    ensures Split(Render(IntArray(xs))) == [Render(IntArray(xs))]
  {
    var body := " " + IntItems(xs);
    NoBracketInItems(xs);
    RenderBracketed(xs, body);
    SplitBracketed(body);
  }

  lemma {:induction false} RenderBracketed(xs: seq<int>, body: string)
    requires body == " " + IntItems(xs)
    ensures Render(IntArray(xs)) == "[" + body + "]"
  {
  }

  /** A bracketed text with no `]` inside is a single token. */
  lemma {:induction false} SplitBracketed(body: string)
    requires ']' !in body
    ensures Split("[" + body + "]") == ["[" + body + "]"]
  {
    var w := "[" + body + "]";
    OpenBracket(body);
    ArrayTokenScan(body, " ", "[", []);
    var acc := [] + [w];
    TrailingSpace(acc);
    assert acc == [w];
  }

  /** The opening `[` of a text starts an array token. */
  lemma {:induction false} OpenBracket(body: string)
    ensures Scan("[" + body + "]" + " ", WhiteSpace, "", []) == Scan(body + "]" + " ", InArray, "[", [])
  {
    var text := "[" + body + "]" + " ";
    assert text[0] == '[' && text[1..] == body + "]" + " ";
  }

  /** A non-empty integer array parses back from its rendering. (An empty
      one renders as `[ ]`, which is `Error "Parse"`.) */
  lemma {:induction false} IntArrayRoundTrip(xs: seq<int>, symbols: map<string, Atom>, funcs: map<string, seq<Atom>>)
    requires |xs| > 0
    ensures Parse(Render(IntArray(xs)), symbols, funcs, Corrected) == [IntArray(xs)]
  {
    var inner, w := " " + IntItems(xs), Render(IntArray(xs));
    RenderBracketed(xs, inner);
    SplitIntArray(xs);
    ParseBracketed(w, inner, symbols, funcs, Corrected);
    IntArrayElements(xs, symbols);
  }

  /** A text that is one bracketed token parses to the array literal of its
      inside. */
  lemma {:induction false} ParseBracketed(w: string, inner: string, symbols: map<string, Atom>, funcs: map<string, seq<Atom>>, ed: Edition)
    requires Split(w) == [w] && w == "[" + inner + "]"
    ensures Parse(w, symbols, funcs, ed) == [ParseArray(inner, symbols, ed)]
  {
    ParseSingle(w, w, symbols, funcs, ed);
    ParseTokBracketed(w, symbols, funcs, ed);
    assert w[1..|w| - 1] == inner;
  }

  /** An integer's text is an array element of kind INT. */
  lemma {:induction false} IntElement(x: int, symbols: map<string, Atom>)
    ensures Classify(IntToString(x), symbols) == Item(Some(KInt), IntToString(x))
  {
    IntToStringIsInt(x);
    IsIntHead(IntToString(x), false);
  }

  /** Texts as the element loop sees them when each is an integer: one INT
      element per text. */
  function IntElements(ws: seq<string>): (r: seq<ElementInfo>)
    ensures |r| == |ws|
  {
    if |ws| == 0 then [] else [Item(Some(KInt), ws[0])] + IntElements(ws[1..])
  }

  lemma {:induction false} IntElementsAt(ws: seq<string>, i: nat)
    requires i < |ws|
    ensures IntElements(ws)[i] == Item(Some(KInt), ws[i])
    decreases i
  {
    assert IntElements(ws) == [Item(Some(KInt), ws[0])] + IntElements(ws[1..]);
    if i > 0 {
      IntElementsAt(ws[1..], i - 1);
    }
  }

  /** The values `atoi` reads from texts, in order. */
  function Atois(ws: seq<string>): (r: seq<int>)
    ensures |r| == |ws|
  {
    if |ws| == 0 then [] else [Atoi(ws[0])] + Atois(ws[1..])
  }

  /** Reading back the texts of integers gives the integers. */
  lemma {:induction false} AtoisIntTexts(xs: seq<int>)
    ensures Atois(IntTexts(xs)) == xs
    decreases |xs|
  {
    if |xs| > 0 {
      var ws := IntTexts(xs);
      assert ws == [IntToString(xs[0])] + IntTexts(xs[1..]);
      assert ws[0] == IntToString(xs[0]) && ws[1..] == IntTexts(xs[1..]);
      AtoiInvertsIntToString(xs[0]);
      AtoisIntTexts(xs[1..]);
      assert [xs[0]] + xs[1..] == xs;
    }
  }

  /** The elements of a rendered integer array are INT elements. */
  lemma {:induction false} IntItemsClassified(xs: seq<int>, symbols: map<string, Atom>)
    ensures Items(" " + IntItems(xs), symbols, Corrected) == IntElements(IntTexts(xs))
  {
    SplitIntItems(xs);
    var its := Items(" " + IntItems(xs), symbols, Corrected);
    var ws := IntTexts(xs);
    forall i | 0 <= i < |xs| ensures its[i] == IntElements(ws)[i] {
      IntTextsAt(xs, i);
      IntElementsAt(ws, i);
      IntElement(xs[i], symbols);
    }
  }

  /** Adding an INT element appends the integer `atoi` reads from it. */
  lemma {:induction false} AddIntElement(acc: seq<int>, w: string)
    ensures AddElement(IntArray(acc), KInt, w) == IntArray(acc + [Atoi(w)])
    ensures AddElement(Error("Parse"), KInt, w) == IntArray([Atoi(w)])
  {
  }

  /** The element loop over INT elements appends their integers. */
  lemma {:induction false} IntLoop(ws: seq<string>, acc: seq<int>)
    ensures ArrayLoop(IntElements(ws), Some(KInt), IntArray(acc)) == IntArray(acc + Atois(ws))
    decreases |ws|
  {
    if |ws| == 0 {
      assert acc + Atois(ws) == acc;
    } else {
      var rest, acc' := ws[1..], acc + [Atoi(ws[0])];
      IntLoop(rest, acc');
      IntLoopStep(ws, acc, rest, acc');
    }
  }

  /** The first INT element appended, then the rest: the whole run. */
  lemma {:induction false} IntLoopStep(ws: seq<string>, acc: seq<int>, rest: seq<string>, acc': seq<int>)
    requires |ws| > 0 && rest == ws[1..] && acc' == acc + [Atoi(ws[0])]
    requires ArrayLoop(IntElements(rest), Some(KInt), IntArray(acc')) == IntArray(acc' + Atois(rest))
    ensures ArrayLoop(IntElements(ws), Some(KInt), IntArray(acc)) == IntArray(acc + Atois(ws))
  {
    var its := IntElements(ws);
    assert its == [Item(Some(KInt), ws[0])] + IntElements(rest);
    assert its[1..] == IntElements(rest);
    AddIntElement(acc, ws[0]);
    assert Atois(ws) == [Atoi(ws[0])] + Atois(rest);
    assert acc' + Atois(rest) == acc + Atois(ws);
  }

  /** The element loop over a non-empty run of INT elements makes the array
      of their integers. */
  lemma {:induction false} IntElementsLoop(ws: seq<string>)
    requires |ws| > 0
    ensures ArrayLoop(IntElements(ws), None, Error("Parse")) == IntArray(Atois(ws))
  {
    var its := IntElements(ws);
    assert its == [Item(Some(KInt), ws[0])] + IntElements(ws[1..]);
    assert its[1..] == IntElements(ws[1..]);
    AddIntElement([], ws[0]);
    IntLoop(ws[1..], [Atoi(ws[0])]);
    assert Atois(ws) == [Atoi(ws[0])] + Atois(ws[1..]);
  }

  /** The elements of a rendered integer array are integers, one per
      element, and the array they make is the original. */
  lemma {:induction false} IntArrayElements(xs: seq<int>, symbols: map<string, Atom>)
    requires |xs| > 0
    ensures ParseArray(" " + IntItems(xs), symbols, Corrected) == IntArray(xs)
  {
    IntItemsClassified(xs, symbols);
    IntElementsLoop(IntTexts(xs));
    AtoisIntTexts(xs);
  }

  lemma {:induction false} KeptAll(items: seq<ElementInfo>)
    requires forall i :: 0 <= i < |items| ==> items[i].Item?
    ensures Kept(items) == items
    decreases |items|
  {
    if |items| > 0 {
      KeptAll(items[1..]);
    }
  }

  lemma {:induction false} RenderOne()
    ensures Render(IntArray([1])) == "[ 1 ]"
  {
    assert IntItems([1]) == "1 ";
  }

  /** The tokenizer as written keeps the leading space of ` 1 `. */
  lemma {:induction false} SplitLeadingSpaceAsWritten()
    ensures SplitAsWritten(" 1 ") == [" 1"]
  {
    var text := " 1 " + " ";
    assert text[0] == ' ' && text[1..] == "1  ";
    assert Scan(text, Start, "", []) == Scan("1  ", Bare, " ", []);
    assert "1  "[1..] == "  " && "  "[1..] == " " && " "[1..] == "";
    assert " " + ['1'] == " 1";
    assert Scan("1  ", Bare, " ", []) == Scan("  ", Bare, " 1", []);
    assert Scan("  ", Bare, " 1", []) == Scan(" ", WhiteSpace, "", [" 1"]);
  }

  /** ` 1` is no literal, so as an array element it is rejected. */
  lemma {:induction false} SpacedOneRejected()
    ensures ArrayLoop([Classify(" 1", map[])], None, Error("Parse")) == Error("Bad-array-el:  1")
  {
    NoNumber(" 1");
    assert !IsComment(" 1") && !IsBool(" 1") && !IsString(" 1");
    assert Classify(" 1", map[]) == Item(None, " 1");
  }

  /** With the tokenizer as written, the rendering of the one-element array
      `[1]` is `[ 1 ]`, whose inner text splits into the single token " 1";
      that is neither a literal nor a symbol, so the literal is rejected. */
  lemma {:induction false} ArrayRenderAsWritten()
    ensures Render(IntArray([1])) == "[ 1 ]"
    ensures SplitAsWritten(" 1 ") == [" 1"]
    ensures ArrayLoop([Classify(" 1", map[])], None, Error("Parse")) == Error("Bad-array-el:  1")
  {
    RenderOne();
    SplitLeadingSpaceAsWritten();
    SpacedOneRejected();
  }

  /** An integer's text holds no white space. */
  lemma {:induction false} IntTextNoWhite(x: int)
    ensures NoWhite(IntToString(x))
  {
    IntToStringText(x);
    IntTextCharset(IntToString(x));
  }

  /** The tokenizer as written opens a bareword on the blank after `[`, so
      the first token of an INT array's inner text is its first integer with
      that blank in front. */
  lemma {:induction false} SplitIntItemsAsWritten(xs: seq<int>)
    requires |xs| > 0
    ensures var r := SplitAsWritten(" " + IntItems(xs));
      |r| > 0 && r[0] == " " + IntToString(xs[0])
  {
    var u, more := IntToString(xs[0]), IntItems(xs[1..]) + " ";
    var text := " " + IntItems(xs) + " ";
    assert text == " " + (u + " " + more);
    assert text[0] == ' ' && text[1..] == u + " " + more;
    assert Scan(text, Start, "", []) == Scan(u + " " + more, Bare, " ", []);
    IntTextNoWhite(xs[0]);
    BareRun(u, " ", more, []);
    var t := " " + u;
    assert [] + [t] == [t];
    assert NoWhite(t[1..]) by { assert t[1..] == u; }
    ScanShapes(more, WhiteSpace, "", [t]);
  }

  /** A blank followed by an integer is no literal and, unless it names a
      symbol, an element without a kind. */
  lemma {:induction false} SpacedIntElement(x: int, symbols: map<string, Atom>)
    requires " " + IntToString(x) !in symbols
    ensures Classify(" " + IntToString(x), symbols) == Item(None, " " + IntToString(x))
  {
    var w := " " + IntToString(x);
    NoNumber(w);
    assert !IsComment(w) && !IsBool(w) && !IsString(w);
  }

  /** With the tokenizer as written, the rendering of every non-empty INT
      array parses to a `Bad-array-el` error naming its first element with
      the blank in front, unless that text names a symbol. */
  lemma {:induction false} IntArrayRejectedAsWritten(xs: seq<int>, symbols: map<string, Atom>, funcs: map<string, seq<Atom>>)
    requires |xs| > 0 && " " + IntToString(xs[0]) !in symbols
    ensures Parse(Render(IntArray(xs)), symbols, funcs, AsWritten)
            == [Error("Bad-array-el:  " + IntToString(xs[0]))]
  {
    var inner, w := " " + IntItems(xs), Render(IntArray(xs));
    RenderBracketed(xs, inner);
    SplitIntArray(xs);
    ParseBracketed(w, inner, symbols, funcs, AsWritten);
    IntItemsRejectedAsWritten(xs, symbols);
  }

  lemma {:induction false} IntItemsRejectedAsWritten(xs: seq<int>, symbols: map<string, Atom>)
    requires |xs| > 0 && " " + IntToString(xs[0]) !in symbols
    ensures ParseArray(" " + IntItems(xs), symbols, AsWritten) == Error("Bad-array-el:  " + IntToString(xs[0]))
  {
    var e := " " + IntToString(xs[0]);
    SplitIntItemsAsWritten(xs);
    SpacedIntElement(xs[0], symbols);
    var items := Items(" " + IntItems(xs), symbols, AsWritten);
    assert |items| > 0 && items[0] == Item(None, e);
    FirstKindless(items, e);
    assert "Bad-array-el: " + e == "Bad-array-el:  " + IntToString(xs[0]);
  }

  /** An array whose first element has no kind is rejected on it. */
  lemma {:induction false} FirstKindless(items: seq<ElementInfo>, e: string)
    requires |items| > 0 && items[0] == Item(None, e)
    ensures ArrayLoop(items, None, Error("Parse")) == Error("Bad-array-el: " + e)
  {
  }
}
