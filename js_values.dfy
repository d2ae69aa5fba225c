/** The JavaScript values that the listing form holds, and the parts of the
    language's semantics that the form logic relies on: truthiness and the
    `>=` operator, whose operands are compared as strings when both are
    strings and as numbers otherwise. Numbers are idealised as integers. */
module JsValues {
  import opened Optional

  /** A file chosen in the file input; only its name matters to the page. */
  datatype File = File(name: string)

  /** A value stored in the form state. */
  datatype FormValue =
    | Undefined                   // a key the object does not have
    | Bool(b: bool)
    | Num(n: int)                 // the initial numeric fields
    | Str(s: string)              // every edited input value
    | FileList(files: seq<File>)  // `e.target.files`
    | EmptyObject                 // the initial `images: {}`

  /** A primitive value, as `>=` sees its operands. */
  datatype Primitive = PUndefined | PBool(b: bool) | PNum(n: int) | PStr(s: string)

  /** A number: an integer or NaN. */
  datatype Number = NaN | Int(i: int)

  /** Objects become their default `toString` text. */
  function ToPrimitive(v: FormValue): Primitive {
    match v
    case Undefined => PUndefined
    case Bool(b) => PBool(b)
    case Num(n) => PNum(n)
    case Str(s) => PStr(s)
    case FileList(_) => PStr("[object FileList]")
    case EmptyObject => PStr("[object Object]")
  }

  predicate IsDigit(c: char) {
    '0' <= c <= '9'
  }

  predicate AllDigits(s: string) {
    forall i :: 0 <= i < |s| ==> IsDigit(s[i])
  }

  function DigitOf(c: char): (d: int)
    requires IsDigit(c)
    ensures 0 <= d <= 9
  {
    c as int - '0' as int
  }

  function Pow10(n: nat): (p: int)
    ensures p >= 1
  {
    if n == 0 then 1 else 10 * Pow10(n - 1)
  }

  /** The value of a string of decimal digits, most significant digit first. */
  function DigitsValue(s: string): int
    requires AllDigits(s)
  {
    if |s| == 0 then 0 else DigitOf(s[0]) * Pow10(|s| - 1) + DigitsValue(s[1..])
  }

  /** String-to-number conversion for the empty string, decimal digits and a
      leading minus sign; every other text is NaN here. */
  function StringToNumber(s: string): Number {
    if s == "" then Int(0)
    else if s[0] == '-' && |s| > 1 && AllDigits(s[1..]) then Int(-DigitsValue(s[1..]))
    else if AllDigits(s) then Int(DigitsValue(s))
    else NaN
  }

  function ToNumber(p: Primitive): Number {
    match p
    case PUndefined => NaN
    case PBool(b) => Int(if b then 1 else 0)
    case PNum(n) => Int(n)
    case PStr(s) => StringToNumber(s)
  }

  /** String order: character by character, a proper prefix first. */
  predicate LexLess(a: string, b: string) {
    if |b| == 0 then false
    else if |a| == 0 then true
    else if a[0] != b[0] then a[0] < b[0]
    else LexLess(a[1..], b[1..])
  }

  /** The abstract relational comparison `x < y`; None is `undefined`, the
      answer when either side is NaN. */
  function IsLessThan(x: Primitive, y: Primitive): (r: Option<bool>)
    ensures x.PStr? && y.PStr? ==> r == Some(LexLess(x.s, y.s))
    ensures !(x.PStr? && y.PStr?) && ToNumber(x).Int? && ToNumber(y).Int? ==>
              r == Some(ToNumber(x).i < ToNumber(y).i)
    ensures !(x.PStr? && y.PStr?) && (ToNumber(x).NaN? || ToNumber(y).NaN?) ==> r == None
  {
    if x.PStr? && y.PStr? then Some(LexLess(x.s, y.s))
    else
      match (ToNumber(x), ToNumber(y))
      case (Int(a), Int(b)) => Some(a < b)
      case _ => None
  }

  /** `x >= y`: true only when `x < y` is false (an undefined comparison gives false). */
  predicate GreaterOrEqual(x: FormValue, y: FormValue) {
    IsLessThan(ToPrimitive(x), ToPrimitive(y)) == Some(false)
  }

  predicate Truthy(v: FormValue) {
    match v
    case Undefined => false
    case Bool(b) => b
    case Num(n) => n != 0
    case Str(s) => s != ""
    case FileList(_) => true
    case EmptyObject => true
  }

  /** On two numbers `>=` is the numeric order. */
  lemma GreaterOrEqualOnNumbers(a: int, b: int)
    ensures GreaterOrEqual(Num(a), Num(b)) <==> a >= b
  {
  }

  /** On a number and a numeral, `>=` compares numerically. */
  lemma GreaterOrEqualMixed(a: int, s: string)
    requires AllDigits(s) && s != ""
    ensures GreaterOrEqual(Num(a), Str(s)) <==> a >= DigitsValue(s)
    ensures GreaterOrEqual(Str(s), Num(a)) <==> DigitsValue(s) >= a
  {
  }

  /** Two numerals are compared as text: "100" is not >= "20", "9" is >= "10". */
  lemma NumeralsCompareAsText()
    ensures !GreaterOrEqual(Str("100"), Str("20"))
    ensures GreaterOrEqual(Str("9"), Str("10"))
  {
  }

  lemma {:induction false} DigitsValueBounds(s: string)
    requires AllDigits(s)
    ensures 0 <= DigitsValue(s) < Pow10(|s|)
  {
    if |s| > 0 {
      var p := Pow10(|s| - 1);
      DigitsValueBounds(s[1..]);
      assert DigitOf(s[0]) * p <= 9 * p;
    }
  }

  /** A lower leading digit outweighs any lower-order digits. */
  lemma LeadingDigitDecides(da: int, db: int, p: int, x: int, y: int)
    requires 0 <= da < db && p >= 1 && 0 <= x < p && 0 <= y < p
    ensures da * p + x < db * p + y
  {
    var k := db - da;
    assert k * p >= p by {
      assert k >= 1;
    }
    assert db * p == da * p + k * p;
  }

  /** Numerals of equal length compare as text exactly as they compare as
      numbers. */
  lemma {:induction false} EqualLengthNumeralsCompareNumerically(a: string, b: string)
    requires AllDigits(a) && AllDigits(b) && |a| == |b|
    ensures LexLess(a, b) <==> DigitsValue(a) < DigitsValue(b)
  {
    if |a| > 0 {
      var p := Pow10(|a| - 1);
      var da, db := DigitOf(a[0]), DigitOf(b[0]);
      var va, vb := DigitsValue(a[1..]), DigitsValue(b[1..]);
      assert DigitsValue(a) == da * p + va;
      assert DigitsValue(b) == db * p + vb;
      DigitsValueBounds(a[1..]);
      DigitsValueBounds(b[1..]);
      if a[0] == b[0] {
        EqualLengthNumeralsCompareNumerically(a[1..], b[1..]);
      } else if a[0] < b[0] {
        LeadingDigitDecides(da, db, p, va, vb);
      } else {
        LeadingDigitDecides(db, da, p, vb, va);
      }
    }
  }

  /** So `>=` on two numerals of equal length is the numeric order. */
  lemma EqualLengthNumeralsGreaterOrEqual(a: string, b: string)
    requires AllDigits(a) && AllDigits(b) && |a| == |b|
    ensures GreaterOrEqual(Str(a), Str(b)) <==> DigitsValue(a) >= DigitsValue(b)
  {
    EqualLengthNumeralsCompareNumerically(a, b);
  }
}
