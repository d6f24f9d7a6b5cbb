/** Character classes and the two std::string searches the interpreter relies on:
    `find` of a single character and the `replaceAll` helper used when rendering
    strings. Strings are sequences of characters, one character per byte of the
    source's std::string. */
module Text {

  /** The four characters the tokenizer treats as white space. */
  predicate IsWhite(c: char) {
    c == ' ' || c == '\n' || c == '\r' || c == '\t'
  }

  predicate IsDigit(c: char) {
    '0' <= c <= '9'
  }

  predicate AllDigits(s: string) {
    forall k :: 0 <= k < |s| ==> IsDigit(s[k])
  }

  predicate NoWhite(s: string) {
    forall k :: 0 <= k < |s| ==> !IsWhite(s[k])
  }

  /** std::string::find for one character: the index of its first occurrence,
      or -1 standing for `npos`. */
  function FindChar(s: string, c: char): (r: int)
    ensures -1 <= r < |s|
    ensures r == -1 <==> c !in s
    ensures r >= 0 ==> s[r] == c && c !in s[..r]
  {
    if |s| == 0 then -1
    else if s[0] == c then 0
    else
      var k := FindChar(s[1..], c);
      assert s[1..][..if k < 0 then 0 else k] == s[1..if k < 0 then 1 else k + 1];
      if k < 0 then -1 else k + 1
  }

  /** The first occurrence is where `find` stops. */
  lemma {:induction false} FindCharAt(s: string, c: char, j: nat)
    requires j < |s| && s[j] == c && c !in s[..j]
    ensures FindChar(s, c) == j
    decreases j
  {
    if j > 0 {
      assert s[..j][0] == s[0];
      assert s[1..][..j - 1] == s[1..j];
      assert forall x :: x in s[1..j] ==> x in s[..j];
      FindCharAt(s[1..], c, j - 1);
    }
  }

  /** `replaceAll(str, from, to)`: every occurrence of `from`, scanning left to
      right, is replaced by `to`; the scan resumes after the inserted text, so
      a replacement is never rescanned. An empty `from` leaves the text alone. */
  function ReplaceAll(s: string, from: string, to: string): (r: string)
    ensures |from| == 0 ==> r == s
    ensures |from| == 1 && from[0] !in s ==> r == s
    ensures |from| == 1 && from[0] !in to ==> from[0] !in r
    decreases |s|
  {
    if |from| == 0 || |s| < |from| then s
    else if s[..|from|] == from then to + ReplaceAll(s[|from|..], from, to)
    else [s[0]] + ReplaceAll(s[1..], from, to)
  }

  /** One character against a one-character pattern: replaced when it
      matches, kept otherwise. With `ReplaceCharConcat` this fixes the result
      for every text. */
  lemma {:induction false} ReplaceOneChar(x: char, c: char, to: string)
    ensures ReplaceAll([x], [c], to) == if x == c then to else [x]
  {
    if x == c {
      assert [x][1..] == [];
      assert to + [] == to;
    } else {
      assert [x][1..] == [];
    }
  }

  /** An independent reading of replacing one character, built from the
      end of the text: each occurrence of `c` becomes `to`, every other
      character is kept, in order. */
  function SubstChar(s: string, c: char, to: string): string
    decreases |s|
  {
    if |s| == 0 then []
    else SubstChar(s[..|s| - 1], c, to) + (if s[|s| - 1] == c then to else [s[|s| - 1]])
  }

  /** `replaceAll` with a one-character pattern is exactly that. */
  lemma {:induction false} ReplaceCharMeans(s: string, c: char, to: string)
    ensures ReplaceAll(s, [c], to) == SubstChar(s, c, to)
    decreases |s|
  {
    if |s| > 0 {
      var init, x := s[..|s| - 1], s[|s| - 1];
      assert s == init + [x];
      ReplaceCharConcat(init, [x], [c], to);
      ReplaceOneChar(x, c, to);
      ReplaceCharMeans(init, c, to);
    }
  }

  /** With a one-character pattern the replacement works character by
      character, so it distributes over concatenation. */
  lemma {:induction false} ReplaceCharConcat(a: string, b: string, from: string, to: string)
    requires |from| == 1
    ensures ReplaceAll(a + b, from, to) == ReplaceAll(a, from, to) + ReplaceAll(b, from, to)
    decreases |a|
  {
    if |a| == 0 {
      assert a + b == b;
    } else {
      assert (a + b)[1..] == a[1..] + b;
      assert (a + b)[..1] == a[..1];
      ReplaceCharConcat(a[1..], b, from, to);
    }
  }
}
