/** How the scanner takes apart the texts the renderer produces: barewords,
    runs of barewords each followed by a space, and quoted strings whose
    newlines are written as `\n`. */
module ScanFacts {
  import opened Text
  import opened Lexer

  /** A token that the scanner reads as a bareword. */
  predicate Bareword(w: string) {
    |w| > 0 && NoWhite(w) && Opening(w[0]) == Bare
  }

  /** A bareword in progress runs up to the next white space. */
  lemma {:induction false} BareRun(u: string, tok: string, rest: string, acc: seq<string>)
    requires |tok| > 0 && NoWhite(u)
    ensures Scan(u + " " + rest, Bare, tok, acc) == Scan(rest, WhiteSpace, "", acc + [tok + u])
    decreases |u|
  {
    var s := u + " " + rest;
    if |u| == 0 {
      assert s[0] == ' ' && s[1..] == rest;
      assert tok + u == tok;
    } else {
      assert s[0] == u[0] && s[1..] == u[1..] + " " + rest;
      assert NoWhite(u[1..]) by {
        forall k | 0 <= k < |u[1..]| ensures !IsWhite(u[1..][k]) {
          assert u[1..][k] == u[k + 1];
        }
      }
      BareRun(u[1..], tok + [u[0]], rest, acc);
      assert tok + [u[0]] + u[1..] == tok + u;
    }
  }

  /** Between tokens, a bareword followed by a space becomes one token. */
  lemma {:induction false} BarewordScan(w: string, rest: string, acc: seq<string>)
    requires Bareword(w)
    ensures Scan(w + " " + rest, WhiteSpace, "", acc) == Scan(rest, WhiteSpace, "", acc + [w])
  {
    var s := w + " " + rest;
    assert s[0] == w[0] && s[1..] == w[1..] + " " + rest;
    assert NoWhite(w[1..]) by {
      forall k | 0 <= k < |w[1..]| ensures !IsWhite(w[1..][k]) {
        assert w[1..][k] == w[k + 1];
      }
    }
    BareRun(w[1..], [w[0]], rest, acc);
    assert [w[0]] + w[1..] == w;
  }

  /** A bareword on its own is a single token. */
  lemma {:induction false} SplitBareword(w: string)
    requires Bareword(w)
    ensures Split(w) == [w]
  {
    BarewordScan(w, "", []);
    assert w + " " + "" == w + " ";
  }

  /** Words each followed by one space. */
  function Spaced(ws: seq<string>): string {
    if |ws| == 0 then "" else ws[0] + " " + Spaced(ws[1..])
  }

  /** Barewords each followed by a space become one token each. */
  lemma {:induction false} SpacedScan(ws: seq<string>, rest: string, acc: seq<string>)
    requires forall i :: 0 <= i < |ws| ==> Bareword(ws[i])
    ensures Scan(Spaced(ws) + rest, WhiteSpace, "", acc) == Scan(rest, WhiteSpace, "", acc + ws)
    decreases |ws|
  {
    if |ws| == 0 {
      assert Spaced(ws) + rest == rest;
      assert acc + ws == acc;
    } else {
      assert Spaced(ws) + rest == ws[0] + " " + (Spaced(ws[1..]) + rest);
      BarewordScan(ws[0], Spaced(ws[1..]) + rest, acc);
      SpacedScan(ws[1..], rest, acc + [ws[0]]);
      assert acc + [ws[0]] + ws[1..] == acc + ws;
    }
  }

  /** `replaceAll` with the one-character pattern "\n" looks at one character
      at a time. */
  lemma {:induction false} NewlineEscapeHead(s: string)
    requires |s| > 0
    ensures ReplaceAll(s, "\n", "\\n") == (if s[0] == '\n' then "\\n" else [s[0]]) + ReplaceAll(s[1..], "\n", "\\n")
  {
    assert s[..1] == [s[0]];
  }

  lemma {:induction false} InStringPlain(c: char, more: string, tok: string, acc: seq<string>)
    requires c != '\\' && c != '"'
    ensures Scan([c] + more, InString, tok, acc) == Scan(more, InString, tok + [c], acc)
  {
    assert ([c] + more)[1..] == more;
  }

  lemma {:induction false} InStringNewline(more: string, tok: string, acc: seq<string>)
    ensures Scan("\\n" + more, InString, tok, acc) == Scan(more, InString, tok + ['\n'], acc)
  {
    var t := "\\n" + more;
    assert t[0] == '\\' && t[1..] == "n" + more;
    assert ("n" + more)[0] == 'n' && ("n" + more)[1..] == more;
  }

  lemma {:induction false} InStringClose(rest: string, tok: string, acc: seq<string>)
    ensures Scan("\"" + rest, InString, tok, acc) == Scan(rest, WhiteSpace, "", acc + [tok + "\""])
  {
    assert ("\"" + rest)[0] == '"' && ("\"" + rest)[1..] == rest;
  }

  /** One character of an escaped string body: a newline is read back from
      its written form `\n`, any other character as itself. */
  lemma {:induction false} StringBodyStep(s: string, tok: string, rest: string, acc: seq<string>)
    requires |s| > 0 && s[0] != '"' && s[0] != '\\'
    ensures Scan(ReplaceAll(s, "\n", "\\n") + "\"" + rest, InString, tok, acc)
         == Scan(ReplaceAll(s[1..], "\n", "\\n") + "\"" + rest, InString, tok + [s[0]], acc)
  {
    NewlineEscapeHead(s);
    var more := ReplaceAll(s[1..], "\n", "\\n") + "\"" + rest;
    if s[0] == '\n' {
      assert ReplaceAll(s, "\n", "\\n") + "\"" + rest == "\\n" + more;
      InStringNewline(more, tok, acc);
    } else {
      assert ReplaceAll(s, "\n", "\\n") + "\"" + rest == [s[0]] + more;
      InStringPlain(s[0], more, tok, acc);
    }
  }

  /** Inside a string, the escaped body of `s` followed by the closing quote
      gives back `s`: each written `\n` is read as a newline. */
  lemma {:induction false} StringBodyScan(s: string, tok: string, rest: string, acc: seq<string>)
    requires '"' !in s && '\\' !in s
    ensures Scan(ReplaceAll(s, "\n", "\\n") + "\"" + rest, InString, tok, acc)
         == Scan(rest, WhiteSpace, "", acc + [tok + s + "\""])
    decreases |s|
  {
    if |s| == 0 {
      assert ReplaceAll(s, "\n", "\\n") + "\"" + rest == "\"" + rest;
      InStringClose(rest, tok, acc);
      assert tok + s + "\"" == tok + "\"";
    } else {
      assert s[0] in s;
      assert forall x :: x in s[1..] ==> x in s;
      var tok' := tok + [s[0]];
      assert tok' + s[1..] + "\"" == tok + s + "\"" by {
        assert tok' + s[1..] == tok + s;
      }
      calc {
        Scan(ReplaceAll(s, "\n", "\\n") + "\"" + rest, InString, tok, acc);
        { StringBodyStep(s, tok, rest, acc); }
        Scan(ReplaceAll(s[1..], "\n", "\\n") + "\"" + rest, InString, tok', acc);
        { StringBodyScan(s[1..], tok', rest, acc); }
        Scan(rest, WhiteSpace, "", acc + [tok' + s[1..] + "\""]);
      }
    }
  }
}
