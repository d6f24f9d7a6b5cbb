/** What the lexical predicates accept, stated as grammars independent of
    how the source searches the text, and the order in which `parse_tok`
    tries the literal categories. */
module LexicalFacts {
  import opened Text
  import opened Numbers
  import opened Atoms
  import opened Classifier

  /** The source tests a digit by finding it in "0123456789". */
  lemma {:induction false} DigitFound(c: char)
    ensures FindChar(DecimalDigits, c) != -1 <==> IsDigit(c)
  {
    assert DecimalDigits == ['0', '1', '2', '3', '4', '5', '6', '7', '8', '9'];
    if IsDigit(c) {
      var k := (c as int) - ('0' as int);
      assert 0 <= k < 10 && DecimalDigits[k] == c;
    }
  }

  /** A non-empty run of decimal digits. */
  predicate DigitRun(t: string) {
    |t| > 0 && AllDigits(t)
  }

  /** Integer text: a digit run, optionally after one minus sign. */
  predicate IntText(t: string) {
    DigitRun(t) || (|t| > 0 && t[0] == '-' && DigitRun(t[1..]))
  }

  /** `is_int` accepts exactly a digit run, or (when negatives are allowed) a
      minus sign followed by a digit run. */
  lemma {:induction false} IsIntMeans(t: string, natOnly: bool)
    ensures IsInt(t, natOnly) <==> (if natOnly then DigitRun(t) else IntText(t))
  {
    if |t| > 0 && t[0] == '-' {
      assert !IsDigit(t[0]);
    }
  }

  /** Integer text holds nothing but digits and a minus sign. */
  lemma {:induction false} IntTextChars(t: string, c: char)
    requires IntText(t)
    requires !IsDigit(c) && c != '-'
    ensures c !in t
  {
    forall k | 0 <= k < |t|
      ensures t[k] != c
    {
      if k > 0 && !DigitRun(t) {
        assert t[k] == t[1..][k - 1];
      }
    }
  }

  /** The fraction part of a float literal: a digit run, or a digit run, an
      exponent letter and integer text. */
  predicate Fraction(u: string) {
    || DigitRun(u)
    || exists j :: 0 <= j < |u| && (u[j] == 'e' || u[j] == 'E') && DigitRun(u[..j]) && IntText(u[j + 1..])
  }

  /** Float text: integer text, a dot, and a fraction. */
  predicate FloatText(t: string) {
    exists i :: 0 <= i < |t| && t[i] == '.' && IntText(t[..i]) && Fraction(t[i + 1..])
  }

  lemma {:induction false} FloatTailSound(u: string)
    requires IsFloatTail(u)
    ensures Fraction(u)
  {
    var e := FindChar(u, 'e');
    var p := if e < 0 then FindChar(u, 'E') else e;
    if p < 0 {
      IsIntMeans(u, true);
    } else {
      IsIntMeans(u[..p], true);
      IsIntMeans(u[p + 1..], false);
      assert u[p] == 'e' || u[p] == 'E';
    }
  }

  lemma {:induction false} FloatTailComplete(u: string)
    requires Fraction(u)
    ensures IsFloatTail(u)
  {
    if DigitRun(u) {
      IntTextChars(u, 'e');
      IntTextChars(u, 'E');
      IsIntMeans(u, true);
    } else {
      var j :| 0 <= j < |u| && (u[j] == 'e' || u[j] == 'E') && DigitRun(u[..j]) && IntText(u[j + 1..]);
      ExponentAt(u, j);
    }
  }

  /** A fraction with its exponent letter at `j`: the source's search for
      `e`, then `E`, stops exactly there. */
  lemma {:induction false} ExponentAt(u: string, j: nat)
    requires j < |u| && (u[j] == 'e' || u[j] == 'E') && DigitRun(u[..j]) && IntText(u[j + 1..])
    ensures IsFloatTail(u)
  {
    IntTextChars(u[..j], 'e');
    IsIntMeans(u[..j], true);
    IsIntMeans(u[j + 1..], false);
    if u[j] == 'e' {
      FindCharAt(u, 'e', j);
    } else {
      IntTextChars(u[..j], 'E');
      IntTextChars(u[j + 1..], 'e');
      forall k | 0 <= k < |u|
        ensures u[k] != 'e'
      {
        if k < j {
          assert u[k] == u[..j][k];
        } else if k > j {
          assert u[k] == u[j + 1..][k - j - 1];
        }
      }
      FindCharAt(u, 'E', j);
    }
  }

  /** `is_float` accepts exactly integer text, a dot, and a fraction: the
      positions the source's `find` calls stop at are the ones the grammar
      names. */
  lemma {:induction false} IsFloatMeans(t: string)
    ensures IsFloat(t) <==> FloatText(t)
  {
    if IsFloat(t) {
      var pos := FindChar(t, '.');
      IsIntMeans(t[..pos], false);
      FloatTailSound(t[pos + 1..]);
    }
    if FloatText(t) {
      var i :| 0 <= i < |t| && t[i] == '.' && IntText(t[..i]) && Fraction(t[i + 1..]);
      IntTextChars(t[..i], '.');
      FindCharAt(t, '.', i);
      IsIntMeans(t[..i], false);
      FloatTailComplete(t[i + 1..]);
    }
  }

  /** ".5", "1." and "1.5e" are not floats: the part before the dot, the
      part after it and the exponent must all be non-empty. */
  lemma {:induction false} NotFloatExamples()
    ensures !IsFloat(".5") && !IsFloat("1.") && !IsFloat("1.5e")
  {
    FindCharAt(".5", '.', 0);
    FindCharAt("1.", '.', 1);
    FindCharAt("1.5e", '.', 1);
    assert "1.5e"[2..] == "5e";
    FindCharAt("5e", 'e', 1);
    assert "5e"[2..] == "";
  }

  /** Integer text, a dot and a digit run make a float. */
  lemma {:induction false} PlainFloat(a: string, b: string)
    requires IntText(a) && DigitRun(b)
    ensures IsFloat(a + "." + b)
  {
    var t := a + "." + b;
    assert t[|a|] == '.' && t[..|a|] == a && t[|a| + 1..] == b;
    IsFloatMeans(t);
  }

  /** Integer text, a dot, a digit run, an exponent letter and integer text
      make a float. */
  lemma {:induction false} ExponentFloat(a: string, b: string, x: char, e: string)
    requires IntText(a) && DigitRun(b) && (x == 'e' || x == 'E') && IntText(e)
    ensures IsFloat(a + "." + b + [x] + e)
  {
    var u := b + [x] + e;
    assert u[|b|] == x && u[..|b|] == b && u[|b| + 1..] == e;
    assert Fraction(u);
    var t := a + "." + u;
    assert t == a + "." + b + [x] + e;
    assert t[|a|] == '.' && t[..|a|] == a && t[|a| + 1..] == u;
    IsFloatMeans(t);
  }

  lemma {:induction false} PlainFloatExample()
    ensures IsFloat("1.5")
  {
    var t := "1" + "." + "5";
    assert t == "1.5";
    assert DigitRun("1") && DigitRun("5");
    PlainFloat("1", "5");
  }

  lemma {:induction false} NegativeFloatExample()
    ensures IsFloat("-0.25")
  {
    var t := "-0" + "." + "25";
    assert t == "-0.25";
    assert "-0"[1..] == "0";
    assert DigitRun("0") && DigitRun("25");
    PlainFloat("-0", "25");
  }

  /** The exponent is checked with `is_int` allowing a sign, so a negative
      exponent is accepted. */
  lemma {:induction false} NegativeExponentExample()
    ensures IsFloat("1.0e-5")
  {
    var t := "1" + "." + "0" + ['e'] + "-5";
    assert t == "1.0e-5";
    assert "-5"[1..] == "5";
    assert DigitRun("1") && DigitRun("0") && DigitRun("5");
    ExponentFloat("1", "0", 'e', "-5");
  }

  lemma {:induction false} UpperExponentExample()
    ensures IsFloat("2.5E3")
  {
    var t := "2" + "." + "5" + ['E'] + "3";
    assert t == "2.5E3";
    assert DigitRun("2") && DigitRun("5") && DigitRun("3");
    ExponentFloat("2", "5", 'E', "3");
  }

  /** Integer and float literals begin with a digit or a minus sign, so they
      never look like a comment, a string or an array. */
  lemma {:induction false} IsIntHead(t: string, natOnly: bool)
    requires IsInt(t, natOnly)
    ensures |t| > 0 && (IsDigit(t[0]) || t[0] == '-')
  {
    IsIntMeans(t, natOnly);
  }

  lemma {:induction false} IsFloatHead(t: string)
    requires IsFloat(t)
    ensures |t| > 0 && (IsDigit(t[0]) || t[0] == '-')
    ensures !IsInt(t, false)
  {
    var pos := FindChar(t, '.');
    IsIntHead(t[..pos], false);
    assert t[0] == t[..pos][0];
    if IsInt(t, false) {
      IsIntMeans(t, false);
      IntTextChars(t, '.');
    }
  }

  /** The text `std::to_string` writes for an integer is integer text. */
  lemma {:induction false} IntToStringText(i: int)
    ensures IntText(IntToString(i))
  {
  }

  lemma {:induction false} IntToStringIsInt(i: int)
    ensures IsInt(IntToString(i), false)
  {
    IntToStringText(i);
    IsIntMeans(IntToString(i), false);
  }

  /** The characters number literals are made of. */
  predicate NumChar(c: char) {
    IsDigit(c) || c == '-' || c == '.' || c == 'e' || c == 'E'
  }

  lemma {:induction false} IntTextCharset(t: string)
    requires IntText(t)
    ensures forall k :: 0 <= k < |t| ==> IsDigit(t[k]) || t[k] == '-'
  {
    forall k | 0 <= k < |t|
      ensures IsDigit(t[k]) || t[k] == '-'
    {
      if k > 0 && !DigitRun(t) {
        assert t[k] == t[1..][k - 1];
      }
    }
  }

  lemma {:induction false} FractionCharset(u: string)
    requires Fraction(u)
    ensures forall k :: 0 <= k < |u| ==> NumChar(u[k])
  {
    if !DigitRun(u) {
      var j :| 0 <= j < |u| && (u[j] == 'e' || u[j] == 'E') && DigitRun(u[..j]) && IntText(u[j + 1..]);
      IntTextCharset(u[j + 1..]);
      forall k | 0 <= k < |u|
        ensures NumChar(u[k])
      {
        if k < j {
          assert u[k] == u[..j][k];
        } else if k > j {
          assert u[k] == u[j + 1..][k - j - 1];
        }
      }
    }
  }

  /** Float text is made of digits, signs, its dot and an exponent letter,
      so it holds no white space. */
  lemma {:induction false} FloatTextNoWhite(t: string)
    requires FloatText(t)
    ensures NoWhite(t)
  {
    var i :| 0 <= i < |t| && t[i] == '.' && IntText(t[..i]) && Fraction(t[i + 1..]);
    IntTextCharset(t[..i]);
    FractionCharset(t[i + 1..]);
    forall k | 0 <= k < |t|
      ensures NumChar(t[k])
    {
      if k < i {
        assert t[k] == t[..i][k];
      } else if k > i {
        assert t[k] == t[i + 1..][k - i - 1];
      }
    }
  }
}
