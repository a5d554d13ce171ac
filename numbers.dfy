/**
 * The numeric built-ins the score classifier relies on: `float()` of a plain
 * decimal text, `round()` (half to even), and the mean of a list of scores.
 * Python floats are modelled as exact reals.
 */
module Numbers {
  import opened Strings
  import opened Values

  predicate IsDigit(c: char) {
    '0' <= c <= '9'
  }

  predicate AllDigits(s: string) {
    forall i :: 0 <= i < |s| ==> IsDigit(s[i])
  }

  /** The number a run of decimal digits denotes. */
  function DigitsValue(ds: string): nat
    requires AllDigits(ds)
    decreases |ds|
  {
    if ds == [] then 0 else DigitsValue(ds[..|ds| - 1]) * 10 + (ds[|ds| - 1] as int - '0' as int)
  }

  function Pow10(n: nat): (p: nat)
    ensures p >= 1
  {
    if n == 0 then 1 else 10 * Pow10(n - 1)
  }

  /** Position of the first occurrence of c in s, or |s|. */
  function IndexOf(s: string, c: char): (k: nat)
    ensures k <= |s| && (k < |s| ==> s[k] == c)
    ensures forall i :: 0 <= i < k ==> s[i] != c
    ensures (forall i :: 0 <= i < |s| ==> s[i] != c) ==> k == |s|
    decreases |s|
  {
    if s == [] then 0 else if s[0] == c then 0 else 1 + IndexOf(s[1..], c)
  }

  /** `digits`, `digits.`, `.digits` or `digits.digits`, with at least one digit. */
  function ParseUnsigned(t: string): Option<real> {
    var k := IndexOf(t, '.');
    var whole := t[..k];
    var fraction := if k < |t| then t[k + 1..] else [];
    if AllDigits(whole) && AllDigits(fraction) && |whole| + |fraction| > 0 then
      Some(DigitsValue(whole) as real + DigitsValue(fraction) as real / Pow10(|fraction|) as real)
    else None
  }

  /**
   * `float(s)` on a plain decimal: surrounding whitespace is ignored and an
   * optional sign may lead. Anything else is a ValueError, here None.
   */
  function ParseDecimal(s: string): Option<real> {
    ParseSigned(Strip(s))
  }

  /** An optional sign, then an unsigned decimal. */
  function ParseSigned(t: string): Option<real> {
    if t != [] && (t[0] == '-' || t[0] == '+') then
      match ParseUnsigned(t[1..])
      case None => None
      case Some(x) => Some(if t[0] == '-' then -x else x)
    else ParseUnsigned(t)
  }

  lemma {:induction false} DigitsOfNat(n: nat)
    ensures AllDigits(NatToString(n)) && DigitsValue(NatToString(n)) == n
    decreases n
  {
    var r := NatToString(n);
    if n >= 10 {
      DigitsOfNat(n / 10);
      assert r[..|r| - 1] == NatToString(n / 10);
    }
  }

  lemma {:induction false} ParseDigits(ds: string)
    requires ds != [] && AllDigits(ds)
    ensures ParseUnsigned(ds) == Some(DigitsValue(ds) as real)
  {
    assert forall i :: 0 <= i < |ds| ==> ds[i] != '.';
    var k := IndexOf(ds, '.');
    assert k == |ds|;
    assert ds[..k] == ds;
  }

  /** `float(str(i)) == i` for every integer. */
  lemma {:induction false} ParseIntegerText(i: int)
    ensures ParseDecimal(IntToString(i)) == Some(i as real)
  {
    if i < 0 {
      ParseNegative(i);
    } else {
      ParseNatural(i);
    }
  }

  lemma {:induction false} ParseNatural(n: nat)
    ensures ParseDecimal(IntToString(n)) == Some(n as real)
  {
    var digits := NatToString(n);
    assert IntToString(n) == digits;
    DigitsOfNat(n);
    ParseDigits(digits);
    StripOfNoSpaceEnds(digits);
    assert !(digits[0] == '-' || digits[0] == '+');
  }

  lemma {:induction false} ParseNegative(i: int)
    requires i < 0
    ensures ParseDecimal(IntToString(i)) == Some(i as real)
  {
    assert IntToString(i) == "-" + NatToString(-i);
    UnsignedOfNat(-i);
    ParseMinus(NatToString(-i), (-i) as real, i as real);
  }

  lemma {:induction false} UnsignedOfNat(n: nat)
    ensures AllDigits(NatToString(n)) && ParseUnsigned(NatToString(n)) == Some(n as real)
  {
    DigitsOfNat(n);
    ParseDigits(NatToString(n));
  }

  /** A minus sign before a run of digits of value x gives -x. */
  lemma {:induction false} ParseMinus(digits: string, x: real, y: real)
    requires digits != [] && AllDigits(digits) && ParseUnsigned(digits) == Some(x) && y == -x
    ensures ParseDecimal("-" + digits) == Some(y)
  {
    var text := "-" + digits;
    assert text[1..] == digits;
    assert text[|text| - 1] == digits[|digits| - 1];
    assert IsDigit(text[|text| - 1]);
    StripOfNoSpaceEnds(text);
  }

  /**
   * Python's `round(x)`: the nearest integer, and of two equally near ones
   * the even one.
   */
  function RoundHalfEven(x: real): (r: int)
    ensures -0.5 <= x - r as real <= 0.5
    ensures (x - r as real == 0.5 || x - r as real == -0.5) ==> r % 2 == 0
  {
    var f := x.Floor;
    var d := x - f as real;
    if d < 0.5 then f
    else if d > 0.5 then f + 1
    else if f % 2 == 0 then f
    else f + 1
  }

  /** No integer is nearer to x than round(x). */
  lemma {:induction false} RoundIsNearest(x: real, n: int)
    ensures Abs(x - RoundHalfEven(x) as real) <= Abs(x - n as real)
  {
    var r := RoundHalfEven(x);
    if n < r {
      assert n as real <= r as real - 1.0;
    } else if n > r {
      assert n as real >= r as real + 1.0;
    }
  }

  function Abs(x: real): real {
    if x < 0.0 then -x else x
  }

  function Sum(xs: seq<real>): real
    decreases |xs|
  {
    if xs == [] then 0.0 else Sum(xs[..|xs| - 1]) + xs[|xs| - 1]
  }

  /** `sum(xs) / len(xs)` */
  function Mean(xs: seq<real>): real
    requires xs != []
  {
    Sum(xs) / |xs| as real
  }

  lemma {:induction false} SumBounds(xs: seq<real>, lo: real, hi: real)
    requires forall i :: 0 <= i < |xs| ==> lo <= xs[i] <= hi
    ensures |xs| as real * lo <= Sum(xs) <= |xs| as real * hi
    decreases |xs|
  {
    if xs != [] {
      SumBounds(xs[..|xs| - 1], lo, hi);
    }
  }

  /** The mean of scores lies between their least and their greatest. */
  lemma {:induction false} MeanBetween(xs: seq<real>, lo: real, hi: real)
    requires xs != [] && forall i :: 0 <= i < |xs| ==> lo <= xs[i] <= hi
    ensures lo <= Mean(xs) <= hi
  {
    SumBounds(xs, lo, hi);
    var n := |xs| as real;
    assert Mean(xs) * n == Sum(xs);
  }

  /** `_to_number`: the score a dictionary value denotes, if any. */
  function ToNumber(v: Value): (r: Option<real>)
    ensures v.VBool? || v.VInt? || v.VReal? ==> r.Some?
    ensures v.VBool? ==> r == Some(0.0) || r == Some(1.0)
  {
    match v
    case VNone => None
    case VBool(b) => Some(if b then 1.0 else 0.0)
    case VInt(i) => Some(i as real)
    case VReal(r, _) => Some(r)
    case VStr(s) => TextToNumber(s)
    case VOther(_, _) => None
  }

  /**
   * The text branch of `_to_number`: trimmed, every `%` dropped, blank means
   * no score, and a decimal comma is read as a point.
   */
  function TextToNumber(raw: string): (r: Option<real>)
    ensures AllSpace(raw) ==> r == None
  {
    StripEmptyIffAllSpace(raw);
    PercentFreeToNumber(ReplaceAll(Strip(raw), "%", ""))
  }

  function PercentFreeToNumber(stripped: string): Option<real> {
    if stripped == [] then None
    else ParseDecimal(ReplaceAll(stripped, ",", "."))
  }

  /** Replacing a character that does not occur changes nothing. */
  lemma {:induction false} ReplaceAbsent(s: string, c: char, rep: string)
    requires forall i :: 0 <= i < |s| ==> s[i] != c
    ensures ReplaceAll(s, [c], rep) == s
    decreases |s|
  {
    if |s| >= 1 {
      assert s[..1] != [c] by { assert s[..1][0] == s[0]; }
      ReplaceAbsent(s[1..], c, rep);
      assert [s[0]] + s[1..] == s;
    }
  }

  /** A blank text is no score. */
  lemma {:induction false} BlankTextHasNoScore(s: string)
    requires AllSpace(s)
    ensures ToNumber(VStr(s)) == None
  {
    StripEmptyIffAllSpace(s);
    assert ReplaceAll([], "%", "") == [];
  }

  /** The text of an integer is that integer's score. */
  lemma {:induction false} IntegerTextScores(i: int)
    ensures ToNumber(VStr(IntToString(i))) == Some(i as real)
  {
    var text := IntToString(i);
    IntegerTextPlain(i);
    StripOfNoSpaceEnds(text);
    ReplaceAbsent(text, '%', "");
    ReplaceAbsent(text, ',', ".");
    ParseIntegerText(i);
    calc {
      ToNumber(VStr(text));
      TextToNumber(text);
      PercentFreeToNumber(ReplaceAll(Strip(text), "%", ""));
      PercentFreeToNumber(text);
      ParseDecimal(ReplaceAll(text, ",", "."));
      ParseDecimal(text);
    }
  }

  /** The text of an integer is a sign and digits. */
  lemma {:induction false} IntegerTextPlain(i: int)
    ensures var text := IntToString(i);
      text != [] && !IsSpace(text[0]) && !IsSpace(text[|text| - 1])
      && forall k :: 0 <= k < |text| ==> text[k] == '-' || IsDigit(text[k])
  {
    var n: nat := if i < 0 then -i else i;
    var digits := NatToString(n);
    if i < 0 {
      assert IntToString(i) == "-" + digits;
    } else {
      assert IntToString(i) == digits;
    }
  }

  /** A percentage with a decimal comma: `" 12,5% "` is the score 12.5. */
  lemma {:induction false} PercentWithDecimalComma()
    ensures ToNumber(VStr(" 12,5% ")) == Some(12.5)
  {
    StripExample();
    PercentRemovedExample();
    CommaReplacedExample();
    DecimalExample();
    calc {
      ToNumber(VStr(" 12,5% "));
      TextToNumber(" 12,5% ");
      PercentFreeToNumber(ReplaceAll("12,5%", "%", ""));
      PercentFreeToNumber("12,5");
      ParseDecimal("12.5");
    }
  }

  lemma {:induction false} PercentRemovedExample()
    ensures ReplaceAll("12,5%", "%", "") == "12,5"
  {
    assert ReplaceAll("%", "%", "") == "";
    assert ReplaceAll("5%", "%", "") == "5";
    assert ReplaceAll(",5%", "%", "") == ",5";
    assert ReplaceAll("2,5%", "%", "") == "2,5";
  }

  lemma {:induction false} CommaReplacedExample()
    ensures ReplaceAll("12,5", ",", ".") == "12.5"
  {
    assert ReplaceAll("5", ",", ".") == "5";
    assert ReplaceAll(",5", ",", ".") == ".5";
    assert ReplaceAll("2,5", ",", ".") == "2.5";
  }

  lemma {:induction false} StripExample()
    ensures Strip(" 12,5% ") == "12,5%"
  {
    StripPadded(" 12,5% ", "12,5%");
  }

  /** One space on either side of a text without outer whitespace is stripped. */
  lemma {:induction false} StripPadded(padded: string, t: string)
    requires t != [] && !IsSpace(t[0]) && !IsSpace(t[|t| - 1])
    requires padded == " " + t + " "
    ensures Strip(padded) == t
  {
    assert padded[1..] == t + " ";
    assert TrimLeft(padded) == TrimLeft(t + " ");
    assert (t + " ")[0] == t[0];
    assert TrimLeft(t + " ") == t + " ";
    assert (t + " ")[..|t|] == t;
    assert TrimRight(t + " ") == TrimRight(t);
    assert TrimRight(t) == t;
  }

  lemma {:induction false} DecimalExample()
    ensures ParseDecimal("12.5") == Some(12.5)
  {
    StripOfNoSpaceEnds("12.5");
    PointExample();
    assert "12.5"[..2] == "12" && "12.5"[3..] == "5";
    assert DigitsValue("12") == 12 by { assert "12"[..1] == "1"; }
    assert ParseUnsigned("12.5") == Some(12.5);
  }

  lemma {:induction false} PointExample()
    ensures IndexOf("12.5", '.') == 2
  {
    assert IndexOf("12.5"[2..], '.') == 0;
    assert "12.5"[1..][1..] == "12.5"[2..];
  }
}
