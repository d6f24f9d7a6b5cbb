/** The tokenizer `split` (indralink.h): a character-by-character state machine
    over the input followed by one synthetic space. */
module Lexer {
  import opened Text

  /** The scanner's states. `Start` is only the initial state; after a token
      the scanner is in `WhiteSpace`, which skips white space and otherwise
      behaves like `Start`. */
  datatype ScanState = Start | Bare | WhiteSpace | InString | StringEsc | InArray | InParen | InLine

  /** The state a token's first character selects. Any character not opening
      a string, comment or array starts a bareword, white space included. */
  function Opening(c: char): ScanState {
    if c == '"' then InString
    else if c == '(' then InParen
    else if c == '\\' then InLine
    else if c == '[' then InArray
    else Bare
  }

  /** The transition function, run over the remaining input `s` with the token
      `tok` under construction and the tokens `acc` emitted so far. */
  function Scan(s: string, st: ScanState, tok: string, acc: seq<string>): seq<string>
    decreases |s|
  {
    if |s| == 0 then acc
    else
      var c := s[0];
      var rest := s[1..];
      match st
      case WhiteSpace =>
        if IsWhite(c) then Scan(rest, WhiteSpace, tok, acc)
        else Scan(rest, Opening(c), [c], acc)
      case Start =>
        Scan(rest, Opening(c), [c], acc)
      case Bare =>
        if IsWhite(c) then Scan(rest, WhiteSpace, "", if |tok| > 0 then acc + [tok] else acc)
        else Scan(rest, Bare, tok + [c], acc)
      case InArray =>
        if c == ']' then Scan(rest, WhiteSpace, "", acc + [tok + [c]])
        else Scan(rest, InArray, tok + [c], acc)
      case StringEsc =>
        Scan(rest, InString, tok + [if c == 'n' then '\n' else c], acc)
      case InString =>
        if c == '\\' then Scan(rest, StringEsc, tok, acc)
        else if c == '"' then Scan(rest, WhiteSpace, "", acc + [tok + [c]])
        else Scan(rest, InString, tok + [c], acc)
      case InParen =>
        if c == ')' then Scan(rest, WhiteSpace, "", acc + [tok + [c]])
        else Scan(rest, InParen, tok + [c], acc)
      case InLine =>
        if c == '\n' || c == '\r' then Scan(rest, WhiteSpace, "", acc + [tok])
        else Scan(rest, InLine, tok + [c], acc)
  }

  /** `split(str)` as written: the scan starts in `Start`, where a white-space
      character opens a bareword, so leading white space becomes part of the
      first token. */
  function SplitAsWritten(str: string): (r: seq<string>)
    ensures forall i :: 0 <= i < |r| ==> TokenShape(r[i])
  {
    ScanShapes(str + " ", Start, "", []);
    Scan(str + " ", Start, "", [])
  }

  /** `split(str)` with leading white space skipped, as everywhere else in the
      scanner: the scan starts in `WhiteSpace`. It differs from
      `SplitAsWritten` only on text that begins with white space
      (`SplitAgrees`), and no token it yields begins with white space. */
  function Split(str: string): (r: seq<string>)
    ensures forall i :: 0 <= i < |r| ==> TokenShape(r[i]) && !IsWhite(r[i][0])
  {
    ScanShapes(str + " ", WhiteSpace, "", []);
    ScanNoWhiteLead(str + " ", WhiteSpace, "", []);
    Scan(str + " ", WhiteSpace, "", [])
  }

  /** The two scans agree unless the text begins with white space. */
  lemma {:induction false} SplitAgrees(str: string)
    requires |str| == 0 || !IsWhite(str[0])
    ensures SplitAsWritten(str) == Split(str)
  {
    var s := str + " ";
    if |str| == 0 {
      assert s == " ";
      assert Scan(s, Start, "", []) == Scan("", Bare, " ", []);
      assert Scan(s, WhiteSpace, "", []) == Scan("", WhiteSpace, "", []);
    } else {
      assert s[0] == str[0];
      assert Scan(s, Start, "", []) == Scan(s[1..], Opening(s[0]), [s[0]], []);
      assert Scan(s, WhiteSpace, "", []) == Scan(s[1..], Opening(s[0]), [s[0]], []);
    }
  }

  /** The shapes a token can have: non-empty, and
      - a string token runs from `"` to `"`;
      - an array token runs from `[` to the first `]`;
      - a parenthesised comment runs from `(` to the first `)`;
      - a line comment runs from `\` and holds no line break;
      - any other token (a bareword) has no white space after its first
        character, which may itself be white space only at the start of the
        input. */
  predicate TokenShape(t: string) {
    && |t| > 0
    && (t[0] == '"' ==> |t| >= 2 && t[|t| - 1] == '"')
    && (t[0] == '[' ==> t[|t| - 1] == ']' && ']' !in t[..|t| - 1])
    && (t[0] == '(' ==> t[|t| - 1] == ')' && ')' !in t[..|t| - 1])
    && (t[0] == '\\' ==> '\n' !in t && '\r' !in t)
    && (Opening(t[0]) == Bare ==> NoWhite(t[1..]))
  }

  /** What the token under construction looks like in each state. */
  predicate Pending(st: ScanState, tok: string) {
    match st
    case Start => tok == ""
    case WhiteSpace => tok == ""
    case Bare => |tok| > 0 && Opening(tok[0]) == Bare && NoWhite(tok[1..])
    case InString => |tok| > 0 && tok[0] == '"'
    case StringEsc => |tok| > 0 && tok[0] == '"'
    case InArray => |tok| > 0 && tok[0] == '[' && ']' !in tok
    case InParen => |tok| > 0 && tok[0] == '(' && ')' !in tok
    case InLine => |tok| > 0 && tok[0] == '\\' && '\n' !in tok && '\r' !in tok
  }

  /** Every token the scanner emits has one of the shapes of `TokenShape`, and
      the tokens emitted earlier are kept in order. */
  lemma {:induction false} ScanShapes(s: string, st: ScanState, tok: string, acc: seq<string>)
    requires Pending(st, tok)
    requires forall i :: 0 <= i < |acc| ==> TokenShape(acc[i])
    ensures var r := Scan(s, st, tok, acc);
      && |acc| <= |r| && r[..|acc|] == acc
      && forall i :: 0 <= i < |r| ==> TokenShape(r[i])
    decreases |s|
  {
    if |s| > 0 {
      var c := s[0];
      var rest := s[1..];
      match st
      case WhiteSpace =>
        if IsWhite(c) {
          ScanShapes(rest, WhiteSpace, tok, acc);
        } else {
          ScanShapes(rest, Opening(c), [c], acc);
        }
      case Start =>
        ScanShapes(rest, Opening(c), [c], acc);
      case Bare =>
        if IsWhite(c) {
          ScanShapes(rest, WhiteSpace, "", if |tok| > 0 then acc + [tok] else acc);
          PrefixOfPrefix(Scan(rest, WhiteSpace, "", if |tok| > 0 then acc + [tok] else acc), acc, [tok]);
        } else {
          assert (tok + [c])[1..] == tok[1..] + [c];
          ScanShapes(rest, Bare, tok + [c], acc);
        }
      case InArray =>
        if c == ']' {
          var t := tok + [c];
          assert t[..|t| - 1] == tok;
          ScanShapes(rest, WhiteSpace, "", acc + [t]);
          PrefixOfPrefix(Scan(rest, WhiteSpace, "", acc + [t]), acc, [t]);
        } else {
          ScanShapes(rest, InArray, tok + [c], acc);
        }
      case StringEsc =>
        ScanShapes(rest, InString, tok + [if c == 'n' then '\n' else c], acc);
      case InString =>
        if c == '\\' {
          ScanShapes(rest, StringEsc, tok, acc);
        } else if c == '"' {
          ScanShapes(rest, WhiteSpace, "", acc + [tok + [c]]);
          PrefixOfPrefix(Scan(rest, WhiteSpace, "", acc + [tok + [c]]), acc, [tok + [c]]);
        } else {
          ScanShapes(rest, InString, tok + [c], acc);
        }
      case InParen =>
        if c == ')' {
          var t := tok + [c];
          assert t[..|t| - 1] == tok;
          ScanShapes(rest, WhiteSpace, "", acc + [t]);
          PrefixOfPrefix(Scan(rest, WhiteSpace, "", acc + [t]), acc, [t]);
        } else {
          ScanShapes(rest, InParen, tok + [c], acc);
        }
      case InLine =>
        if c == '\n' || c == '\r' {
          ScanShapes(rest, WhiteSpace, "", acc + [tok]);
          PrefixOfPrefix(Scan(rest, WhiteSpace, "", acc + [tok]), acc, [tok]);
        } else {
          ScanShapes(rest, InLine, tok + [c], acc);
        }
    }
  }

  /** Outside `Start` a token never begins with white space. */
  predicate WhiteFree(st: ScanState, tok: string) {
    && st != Start
    && (st != WhiteSpace ==> |tok| > 0)
    && (|tok| > 0 ==> !IsWhite(tok[0]))
  }

  predicate CleanLeads(toks: seq<string>) {
    forall i :: 0 <= i < |toks| ==> |toks[i]| > 0 && !IsWhite(toks[i][0])
  }

  lemma {:induction false} CleanLeadsAppend(acc: seq<string>, t: string)
    requires CleanLeads(acc) && |t| > 0 && !IsWhite(t[0])
    ensures CleanLeads(acc + [t])
  {
  }

  lemma {:induction false} ScanNoWhiteLead(s: string, st: ScanState, tok: string, acc: seq<string>)
    requires WhiteFree(st, tok) && CleanLeads(acc)
    ensures CleanLeads(Scan(s, st, tok, acc))
    decreases |s|
  {
    if |s| > 0 {
      var c := s[0];
      var rest := s[1..];
      match st
      case WhiteSpace =>
        if IsWhite(c) {
          ScanNoWhiteLead(rest, WhiteSpace, tok, acc);
        } else {
          ScanNoWhiteLead(rest, Opening(c), [c], acc);
        }
      case Bare =>
        if IsWhite(c) {
          CleanLeadsAppend(acc, tok);
          ScanNoWhiteLead(rest, WhiteSpace, "", acc + [tok]);
        } else {
          ScanNoWhiteLead(rest, Bare, tok + [c], acc);
        }
      case InArray =>
        if c == ']' {
          CleanLeadsAppend(acc, tok + [c]);
          ScanNoWhiteLead(rest, WhiteSpace, "", acc + [tok + [c]]);
        } else {
          ScanNoWhiteLead(rest, InArray, tok + [c], acc);
        }
      case StringEsc =>
        ScanNoWhiteLead(rest, InString, tok + [if c == 'n' then '\n' else c], acc);
      case InString =>
        if c == '\\' {
          ScanNoWhiteLead(rest, StringEsc, tok, acc);
        } else if c == '"' {
          CleanLeadsAppend(acc, tok + [c]);
          ScanNoWhiteLead(rest, WhiteSpace, "", acc + [tok + [c]]);
        } else {
          ScanNoWhiteLead(rest, InString, tok + [c], acc);
        }
      case InParen =>
        if c == ')' {
          CleanLeadsAppend(acc, tok + [c]);
          ScanNoWhiteLead(rest, WhiteSpace, "", acc + [tok + [c]]);
        } else {
          ScanNoWhiteLead(rest, InParen, tok + [c], acc);
        }
      case InLine =>
        if c == '\n' || c == '\r' {
          CleanLeadsAppend(acc, tok);
          ScanNoWhiteLead(rest, WhiteSpace, "", acc + [tok]);
        } else {
          ScanNoWhiteLead(rest, InLine, tok + [c], acc);
        }
    }
  }

  lemma {:induction false} PrefixOfPrefix(r: seq<string>, a: seq<string>, b: seq<string>)
    requires |a + b| <= |r| && r[..|a + b|] == a + b
    ensures |a| <= |r| && r[..|a|] == a
  {
    assert r[..|a|] == (a + b)[..|a|];
  }

  /** A string still open at the end of the input yields no token. */
  lemma {:induction false} OpenStringYieldsNothing(s: string, st: ScanState, tok: string, acc: seq<string>)
    requires st == InString || st == StringEsc
    requires '"' !in s
    ensures Scan(s, st, tok, acc) == acc
    decreases |s|
  {
    if |s| > 0 {
      var c := s[0];
      assert c != '"';
      if st == StringEsc {
        OpenStringYieldsNothing(s[1..], InString, tok + [if c == 'n' then '\n' else c], acc);
      } else if c == '\\' {
        OpenStringYieldsNothing(s[1..], StringEsc, tok, acc);
      } else {
        OpenStringYieldsNothing(s[1..], InString, tok + [c], acc);
      }
    }
  }

  /** An array literal still open at the end of the input yields no token. */
  lemma {:induction false} OpenArrayYieldsNothing(s: string, tok: string, acc: seq<string>)
    requires ']' !in s
    ensures Scan(s, InArray, tok, acc) == acc
    decreases |s|
  {
    if |s| > 0 {
      assert s[0] != ']';
      OpenArrayYieldsNothing(s[1..], tok + [s[0]], acc);
    }
  }

  /** A parenthesised comment still open at the end of the input yields no
      token. */
  lemma {:induction false} OpenParenYieldsNothing(s: string, tok: string, acc: seq<string>)
    requires ')' !in s
    ensures Scan(s, InParen, tok, acc) == acc
    decreases |s|
  {
    if |s| > 0 {
      assert s[0] != ')';
      OpenParenYieldsNothing(s[1..], tok + [s[0]], acc);
    }
  }

  /** A line comment with no line break after it yields no token. */
  lemma {:induction false} OpenLineCommentYieldsNothing(s: string, tok: string, acc: seq<string>)
    requires '\n' !in s && '\r' !in s
    ensures Scan(s, InLine, tok, acc) == acc
    decreases |s|
  {
    if |s| > 0 {
      assert s[0] != '\n' && s[0] != '\r';
      OpenLineCommentYieldsNothing(s[1..], tok + [s[0]], acc);
    }
  }
}
