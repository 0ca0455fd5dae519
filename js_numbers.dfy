/**
 * The number conversions payout-batch-create.js applies: `Number(v)` on a
 * request field, `x.toFixed(2)`, and `+(x.toFixed(2))` to round to cents.
 * Numbers are exact reals here (see README for binary floating point).
 */
module JsNumbers {
  import opened Wrappers
  import opened JsValues
  import opened JsStrings

  predicate IsDigit(c: char) {
    '0' <= c <= '9'
  }

  predicate AllDigits(s: string) {
    forall k :: 0 <= k < |s| ==> IsDigit(s[k])
  }

  function Pow10(n: nat): (r: nat)
    ensures r >= 1
  {
    if n == 0 then 1 else 10 * Pow10(n - 1)
  }

  /** The value of a run of decimal digits, most significant first. */
  function DigitsValue(s: string): nat
    requires AllDigits(s)
  {
    if s == [] then 0 else DigitsValue(s[..|s| - 1]) * 10 + (s[|s| - 1] as int - '0' as int)
  }

  lemma DigitsValueStep(s: string, c: char)
    requires AllDigits(s) && IsDigit(c)
    ensures AllDigits(s + [c]) && DigitsValue(s + [c]) == DigitsValue(s) * 10 + (c as int - '0' as int)
  {
    assert (s + [c])[..|s|] == s;
  }

  lemma DigitCharValue(d: nat)
    requires d < 10
    ensures IsDigit(DigitChar(d)) && DigitChar(d) as int - '0' as int == d
  {
  }

  /** `NatToString` is read back by `DigitsValue`. */
  lemma {:induction false} NatToStringValue(n: nat)
    ensures AllDigits(NatToString(n)) && DigitsValue(NatToString(n)) == n
    decreases n
  {
    if n < 10 {
      DigitCharValue(n);
      assert NatToString(n) == [] + [DigitChar(n)];
      DigitsValueStep([], DigitChar(n));
    } else {
      NatToStringValue(n / 10);
      DigitCharValue(n % 10);
      DigitsValueStep(NatToString(n / 10), DigitChar(n % 10));
    }
  }

  /** The value of a numeral with whole part `w` and `n` fraction digits of value `f`. */
  function DecimalValue(w: nat, f: nat, n: nat): (r: real)
    ensures r >= 0.0
  {
    w as real + f as real / Pow10(n) as real
  }

  /**
   * A decimal numeral without sign: digits, optionally a point and more
   * digits, with at least one digit in all (`"5"`, `"5."`, `".5"`, `"5.25"`).
   */
  function UnsignedDecimal(t: string): (r: Option<real>)
    ensures r.Some? ==> r.value >= 0.0
  {
    var i := FirstIndexOfChar(t, '.');
    var whole := t[..i];
    var frac := if i < |t| then t[i + 1..] else "";
    if AllDigits(whole) && AllDigits(frac) && |whole| + |frac| > 0 then
      Some(DecimalValue(DigitsValue(whole), DigitsValue(frac), |frac|))
    else None
  }

  /**
   * `Number(s)` for text without surrounding white space: "" is 0, and a
   * decimal numeral may carry one sign. `None` is `NaN`.
   */
  function StringToNumber(t: string): (r: Option<real>)
    ensures t == "" ==> r == Some(0.0)
  {
    if t == "" then Some(0.0)
    else
      var digits := if t[0] == '-' || t[0] == '+' then t[1..] else t;
      match UnsignedDecimal(digits)
      case None => None
      case Some(x) => Some(if t[0] == '-' then -x else x)
  }

  /**
   * `Number(v)` for a value `JSON.parse` produced, where `Null` is `null`:
   * `null`, `false` and blank text are 0, `true` is 1, a number is itself,
   * text is read after trimming, and an array or an object by its `String()`.
   */
  function NumberOf(v: Json): (r: Option<real>)
    ensures v.Null? ==> r == Some(0.0)
    ensures v.Num? ==> r == Some(v.n as real)
    ensures v.Bool? ==> r == Some(if v.b then 1.0 else 0.0)
    ensures v.Str? ==> r == StringToNumber(Trim(v.s))
    ensures v.Str? && AllSpace(v.s) ==> r == Some(0.0)
  {
    match v
    case Null => Some(0.0)
    case Bool(b) => Some(if b then 1.0 else 0.0)
    case Num(n) => Some(n as real)
    case _ => StringToNumber(Trim(StringOf(v)))
  }

  /**
   * `Number(body.key)`: a key the parsed body does not have is `undefined`,
   * which is `NaN`, while a key holding `null` is 0.
   */
  function FieldNumber(body: Json, key: string): (r: Option<real>)
    ensures !(body.Obj? && key in body.fields) ==> r.None?
    ensures body.Obj? && key in body.fields ==> r == NumberOf(body.fields[key])
    ensures body.Obj? && key in body.fields && body.fields[key].Null? ==> r == Some(0.0)
  {
    if body.Obj? && key in body.fields then NumberOf(body.fields[key]) else None
  }

  /** The integer nearest to `100 * y`, halves rounded up: the digits `toFixed(2)` prints for `y >= 0`. */
  function Cents(y: real): (c: nat)
    requires y >= 0.0
    ensures c as real <= y * 100.0 + 0.5 < c as real + 1.0
  {
    (y * 100.0 + 0.5).Floor
  }

  /** The two decimals `toFixed(2)` prints for `c` hundredths. */
  function Hundredths(c: nat): (r: string)
    ensures |r| == 2 && AllDigits(r) && DigitsValue(r) == c % 100
  {
    var m := c % 100;
    DigitCharValue(m / 10);
    DigitCharValue(m % 10);
    DigitsValueStep([], DigitChar(m / 10));
    DigitsValueStep([DigitChar(m / 10)], DigitChar(m % 10));
    assert [DigitChar(m / 10)] == [] + [DigitChar(m / 10)];
    [DigitChar(m / 10), DigitChar(m % 10)]
  }

  /** `c` hundredths printed with two decimals: the whole part without leading zeros, a point, two digits. */
  function CentsText(c: nat): string
  {
    NatToString(c / 100) + "." + Hundredths(c)
  }

  /** Every character of a printed amount is a digit or its point. */
  lemma CentsTextChars(c: nat)
    ensures forall k :: 0 <= k < |CentsText(c)| ==> IsDigit(CentsText(c)[k]) || CentsText(c)[k] == '.'
  {
    var w := NatToString(c / 100);
    var h := Hundredths(c);
    var u := CentsText(c);
    forall k | 0 <= k < |u| ensures IsDigit(u[k]) || u[k] == '.' {
      if k < |w| { assert u[k] == w[k]; }
      else if k > |w| { assert u[k] == h[k - |w| - 1]; }
    }
  }

  function Abs(x: real): (r: real)
    ensures r >= 0.0 && (r == x || r == -x)
  {
    if x < 0.0 then -x else x
  }

  /** `x.toFixed(2)`: a minus sign for a negative `x` (even one that rounds to zero), then the rounded digits. */
  function Fixed2(x: real): string
  {
    var u := CentsText(Cents(Abs(x)));
    if x < 0.0 then "-" + u else u
  }

  /** The printed text holds no comma and no line break, so it is one CSV field. */
  lemma Fixed2Plain(x: real)
    ensures ',' !in Fixed2(x) && '\n' !in Fixed2(x)
  {
    CentsTextChars(Cents(Abs(x)));
  }

  /** The value of `c` hundredths. */
  function CentsValue(c: nat): (r: real)
    ensures r >= 0.0
  {
    c as real / 100.0
  }

  /** `+(x.toFixed(2))`: `x` rounded to cents, halves away from zero. */
  function Round2(x: real): (r: real)
    ensures x >= 0.0 ==> r == Cents(x) as real / 100.0
    ensures x < 0.0 ==> r == -(Cents(-x) as real / 100.0)
  {
    if x < 0.0 then -CentsValue(Cents(Abs(x))) else CentsValue(Cents(Abs(x)))
  }

  /** A numeral with a point reads as its whole part plus its fraction. */
  lemma ReadsAsDecimal(whole: string, frac: string)
    requires AllDigits(whole) && AllDigits(frac) && |whole| + |frac| > 0
    ensures UnsignedDecimal(whole + "." + frac) == Some(DecimalValue(DigitsValue(whole), DigitsValue(frac), |frac|))
  {
    var t := whole + "." + frac;
    assert forall k :: 0 <= k < |whole| ==> t[k] == whole[k];
    FirstIndexAt(t, '.', |whole|);
    assert t[..|whole|] == whole && t[|whole| + 1..] == frac;
  }

  /**
   * A numeral of `c` hundredths that starts with a digit reads as `c / 100`,
   * and as `-(c / 100)` with a minus sign in front.
   */
  lemma SignedReads(u: string, c: nat)
    requires u != "" && IsDigit(u[0]) && UnsignedDecimal(u) == Some(CentsValue(c))
    ensures StringToNumber(u) == Some(CentsValue(c))
    ensures StringToNumber("-" + u) == Some(-CentsValue(c))
  {
    var t := "-" + u;
    assert t[0] == '-' && t[1..] == u;
  }

  /** The printed two-decimal text reads back as the number of hundredths it was printed from. */
  lemma CentsTextReads(c: nat)
    ensures UnsignedDecimal(CentsText(c)) == Some(CentsValue(c))
  {
    var w := NatToString(c / 100);
    NatToStringValue(c / 100);
    ReadsAsDecimal(w, Hundredths(c));
    assert Pow10(2) == 100;
    CentsAsReal(c / 100, c % 100);
  }

  lemma CentsAsReal(w: nat, f: nat)
    ensures (w * 100 + f) as real / 100.0 == DecimalValue(w, f, 2)
  {
    assert Pow10(2) == 100;
  }

  /** The first and last characters of a printed amount are digits. */
  lemma CentsTextEnds(c: nat)
    ensures IsDigit(CentsText(c)[0]) && IsDigit(CentsText(c)[|CentsText(c)| - 1])
  {
    var u := CentsText(c);
    assert u[0] == NatToString(c / 100)[0];
    assert u[|u| - 1] == Hundredths(c)[1];
  }
}

/** What `Number` and unary `+` read back from the text `toFixed(2)` prints. */
module JsNumberReads {
  import opened Wrappers
  import opened JsValues
  import opened JsStrings
  import opened JsNumbers

  /** The text of `c` hundredths reads back as `c / 100`, and with a minus sign in front as `-(c / 100)`. */
  lemma CentsTextNumber(c: nat)
    ensures StringToNumber(CentsText(c)) == Some(CentsValue(c))
    ensures StringToNumber("-" + CentsText(c)) == Some(-CentsValue(c))
  {
    CentsTextReads(c);
    CentsTextEnds(c);
    SignedReads(CentsText(c), c);
  }

  /** `+(x.toFixed(2))` is what `Round2` computes: the round trip through the text loses only the rounding. */
  lemma Round2IsParsedFixed2(x: real)
    ensures StringToNumber(Fixed2(x)) == Some(Round2(x))
  {
    var c := Cents(Abs(x));
    CentsTextNumber(c);
    SignedTextReads(Fixed2(x), Round2(x), CentsText(c), c, x < 0.0);
  }

  /** A text that is `u`, with a minus sign when `negative`, reads as the value of `u` with that sign. */
  lemma SignedTextReads(s: string, r: real, u: string, c: nat, negative: bool)
    requires s == if negative then "-" + u else u
    requires r == if negative then -CentsValue(c) else CentsValue(c)
    requires StringToNumber(u) == Some(CentsValue(c)) && StringToNumber("-" + u) == Some(-CentsValue(c))
    ensures StringToNumber(s) == Some(r)
  {
  }

  /** The printed text has no surrounding white space, so `+` reads all of it. */
  lemma Fixed2Trimmed(x: real)
    ensures Trim(Fixed2(x)) == Fixed2(x)
  {
    var c := Cents(Abs(x));
    var u := CentsText(c);
    CentsTextEnds(c);
    var s := Fixed2(x);
    assert s[|s| - 1] == u[|u| - 1];
    NoSpaceAtEnds(s);
  }

  lemma NoSpaceAtEnds(s: string)
    requires s != [] && !IsSpace(s[0]) && !IsSpace(s[|s| - 1])
    ensures Trim(s) == s
  {
    assert LeadingSpaceCount(s) == 0;
    assert TrailingSpaceCount(s[0..]) == 0;
    assert s[0..] == s;
  }

  /** Printing a value already rounded to cents gives the same text, except that a negative value rounding to zero loses its minus sign. */
  lemma Fixed2OfRound2(x: real)
    ensures Fixed2(Round2(x)) == Fixed2(x) <==> x >= 0.0 || Cents(-x) > 0
  {
    var c := Cents(Abs(x));
    var r := Round2(x);
    assert Abs(r) == c as real / 100.0;
    assert Cents(Abs(r)) == c;
    CentsTextEnds(c);
    if x < 0.0 && c == 0 {
      assert Fixed2(x)[0] == '-';
      assert Fixed2(r) == CentsText(c);
    }
  }
}
