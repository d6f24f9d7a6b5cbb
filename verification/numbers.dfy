/** Integer arithmetic as C++ performs it on `int` operands, and the decimal
    texts the interpreter reads (`atoi`) and writes (`std::to_string`).
    Integers are unbounded here: 32-bit overflow is undefined behaviour in the
    source and is not modelled. */
module Numbers {
  import opened Text

  function Abs(x: int): nat {
    if x < 0 then -x else x
  }

  /** C++ `/` on integers: the quotient with its fractional part discarded
      (rounds toward zero, unlike Dafny's Euclidean `/`). */
  function TruncDiv(a: int, b: int): int
    requires b != 0
  {
    var q := Abs(a) / Abs(b);
    if (a < 0) == (b < 0) then q else -q
  }

  /** C++ `%` on integers: the remainder takes the sign of the dividend. */
  function TruncMod(a: int, b: int): int
    requires b != 0
  {
    var r := Abs(a) % Abs(b);
    if a < 0 then -r else r
  }

  /** The two operators meet the C++ standard's requirements: the quotient
      truncates toward zero, `(a/b)*b + a%b == a`, and the remainder is smaller
      than the divisor and never has the opposite sign of the dividend. */
  lemma {:induction false} TruncDivModLaw(a: int, b: int)
    requires b != 0
    ensures TruncDiv(a, b) * b + TruncMod(a, b) == a
    ensures Abs(TruncMod(a, b)) < Abs(b)
    ensures TruncMod(a, b) == 0 || ((TruncMod(a, b) < 0) == (a < 0))
    ensures Abs(TruncDiv(a, b) * b) <= Abs(a)
    ensures TruncDiv(a, b) == 0 || ((TruncDiv(a, b) < 0) == ((a < 0) != (b < 0)))
  {
    var q := Abs(a) / Abs(b);
    var r := Abs(a) % Abs(b);
    var m := q * Abs(b);
    EuclidOnMagnitudes(Abs(a), Abs(b));
    var d := TruncDiv(a, b);
    assert d * b == (if a < 0 then -m else m) by {
      SignedProduct(q, a, b);
    }
  }

  /** Euclidean division of natural numbers, spelled out. */
  lemma {:induction false} EuclidOnMagnitudes(x: nat, y: nat)
    requires y > 0
    ensures x == (x / y) * y + x % y
    ensures 0 <= x % y < y
    ensures (x / y) * y >= 0
  {
    MulNonNeg(x / y, y);
  }

  lemma {:induction false} SignedProduct(q: int, a: int, b: int)
    requires q >= 0 && b != 0
    ensures (if (a < 0) == (b < 0) then q else -q) * b
         == (if a < 0 then -(q * Abs(b)) else q * Abs(b))
  {
    MulNeg(q, Abs(b));
    if b < 0 {
      var mb: int := Abs(b);
      assert b == -mb;
      MulNeg(-q, mb);
      MulNeg(q, -mb);
    }
  }

  lemma {:induction false} MulNonNeg(x: nat, y: nat)
    ensures x * y >= 0
  {
  }

  lemma {:induction false} MulNeg(x: int, y: int)
    ensures (-x) * y == -(x * y)
    ensures x * (-y) == -(x * y)
  {
  }

  /** The digit character for a value below ten. */
  function DigitChar(d: nat): (c: char)
    requires d < 10
    ensures IsDigit(c)
  {
    (('0' as int) + d) as char
  }

  function DigitValue(c: char): (d: nat)
    requires IsDigit(c)
    ensures d < 10
  {
    (c as int) - ('0' as int)
  }

  /** The number an all-digit text denotes, most significant digit first. */
  function NatValue(ds: string): nat
    requires AllDigits(ds)
  {
    if |ds| == 0 then 0
    else NatValue(ds[..|ds| - 1]) * 10 + DigitValue(ds[|ds| - 1])
  }

  /** Length of the longest all-digit prefix. */
  function DigitPrefixLen(s: string): (n: nat)
    ensures n <= |s|
    ensures AllDigits(s[..n])
    ensures n < |s| ==> !IsDigit(s[n])
  {
    if |s| == 0 || !IsDigit(s[0]) then 0
    else
      var n := DigitPrefixLen(s[1..]);
      assert s[..n + 1] == [s[0]] + s[1..][..n];
      n + 1
  }

  /** `atoi` on the texts the interpreter hands it: an optional minus sign and
      the digits that follow it, up to the first non-digit. */
  function Atoi(t: string): int {
    var neg := |t| > 0 && t[0] == '-';
    var u := if neg then t[1..] else t;
    var v: int := NatValue(u[..DigitPrefixLen(u)]);
    if neg then -v else v
  }

  /** `std::to_string` of a natural number. */
  function NatToString(n: nat): (s: string)
    ensures |s| > 0 && AllDigits(s)
    decreases n
  {
    if n < 10 then [DigitChar(n)]
    else NatToString(n / 10) + [DigitChar(n % 10)]
  }

  /** `std::to_string` of an integer: a minus sign for negative values, then
      the digits of the magnitude without leading zeros. */
  function IntToString(i: int): (s: string)
    ensures |s| > 0
    ensures s[0] == '-' <==> i < 0
    ensures i < 0 ==> AllDigits(s[1..]) && |s| > 1
    ensures i >= 0 ==> AllDigits(s)
  {
    if i < 0 then "-" + NatToString(-i) else NatToString(i)
  }

  lemma {:induction false} NatValueOfNatToString(n: nat)
    ensures NatValue(NatToString(n)) == n
    decreases n
  {
    if n >= 10 {
      var s := NatToString(n);
      NatValueOfNatToString(n / 10);
      assert s[..|s| - 1] == NatToString(n / 10);
      assert DigitValue(s[|s| - 1]) == n % 10;
    }
  }

  /** Reading back a rendered integer yields the integer: `atoi` inverts
      `std::to_string`. */
  lemma {:induction false} AtoiInvertsIntToString(i: int)
    ensures Atoi(IntToString(i)) == i
  {
    var s := IntToString(i);
    if i < 0 {
      var u := s[1..];
      assert u == NatToString(-i);
      assert DigitPrefixLen(u) == |u| by {
        AllDigitsPrefixLen(u);
      }
      assert u[..|u|] == u;
      NatValueOfNatToString(-i);
    } else {
      assert s == NatToString(i);
      AllDigitsPrefixLen(s);
      assert s[..|s|] == s;
      NatValueOfNatToString(i);
    }
  }

  lemma {:induction false} AllDigitsPrefixLen(s: string)
    requires AllDigits(s)
    ensures DigitPrefixLen(s) == |s|
    decreases |s|
  {
    if |s| > 0 {
      AllDigitsPrefixLen(s[1..]);
    }
  }
}
