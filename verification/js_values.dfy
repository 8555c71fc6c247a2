/**
 * The values a JSON request body can hold in one field, as the controllers
 * and validators see them after parsing, with the JavaScript tests they
 * apply: truthiness, `ObjectId.isValid`, and `Number(…)`.
 */
module JsValues {
  import opened Wrappers
  import opened Models
  import Text

  /** One field of a request body; `Undefined` when the field is absent. Numbers are integers. */
  datatype JsValue = Undefined | Null | Bool(b: bool) | Num(n: int) | Str(s: string) | Obj

  /** JavaScript truthiness: absent, null, false, 0 and the empty string are falsy. */
  predicate Truthy(v: JsValue) {
    match v
    case Undefined => false
    case Null => false
    case Bool(b) => b
    case Num(n) => n != 0
    case Str(s) => s != ""
    case Obj => true
  }

  /** `!v || typeof v !== "string"` fails: a non-empty string. */
  predicate IsNonEmptyString(v: JsValue) {
    v.Str? && v.s != ""
  }

  /** `ObjectId.isValid(v)`, for the 24-digit hexadecimal string form. */
  predicate IsObjectIdValue(v: JsValue) {
    v.Str? && IsObjectIdText(v.s)
  }

  /**
   * `Number(v)` when it is an integer, and `None` when it is `NaN` or not
   * integral. A string converts when, trimmed, it is empty (0) or a decimal
   * literal: an optional sign, then digits with an optional fraction, with a
   * digit somewhere; its value is integral when the fraction is all zeros.
   */
  function ToInteger(v: JsValue): (r: Option<int>)
    ensures v.Num? ==> r == Some(v.n)
    ensures v.Undefined? || v.Obj? ==> r.None?
    ensures v.Str? && Text.Trim(v.s) == "" ==> r == Some(0)
    ensures v.Str? && Text.Trim(v.s) != "" ==> r == DecimalLiteral(Text.Trim(v.s))
  {
    match v
    case Undefined => None
    case Null => Some(0)
    case Bool(b) => Some(if b then 1 else 0)
    case Num(n) => Some(n)
    case Str(s) => if Text.Trim(s) == "" then Some(0) else DecimalLiteral(Text.Trim(s))
    case Obj => None
  }

  /** The index of the first decimal point of `s`, or `|s|` when there is none. */
  function PointIndex(s: string): (k: nat)
    ensures k <= |s| && (k < |s| ==> s[k] == '.')
    ensures forall i :: 0 <= i < k ==> s[i] != '.'
    decreases |s|
  {
    if s == [] || s[0] == '.' then 0 else 1 + PointIndex(s[1..])
  }

  /** A string of zeros only. */
  predicate AllZeros(s: string) {
    forall i :: 0 <= i < |s| ==> s[i] == '0'
  }

  /** The unsigned part of a literal: `digits`, `digits.`, `.digits` or `digits.digits`, with at least one digit. */
  function UnsignedLiteral(s: string): (r: Option<nat>)
    ensures r.Some? ==> Text.AllDigits(s[..PointIndex(s)]) && r.value == Text.DigitsValue(s[..PointIndex(s)])
  {
    var k := PointIndex(s);
    var whole := s[..k];
    var fraction := if k < |s| then s[k + 1..] else "";
    if Text.AllDigits(whole) && Text.AllDigits(fraction) && |whole| + |fraction| > 0 && AllZeros(fraction)
    then Some(Text.DigitsValue(whole))
    else None
  }

  /** `Number` of a trimmed, non-empty decimal literal whose value is an integer. */
  function DecimalLiteral(s: string): Option<int> {
    var signed := s != [] && (s[0] == '-' || s[0] == '+');
    match UnsignedLiteral(if signed then s[1..] else s)
    case None => None
    case Some(n) => Some(if signed && s[0] == '-' then -(n as int) else n as int)
  }

  /** Digits alone have no decimal point, and read as their value. */
  lemma {:induction false} DigitsLiteral(s: string)
    requires s != [] && Text.AllDigits(s)
    ensures PointIndex(s) == |s| && UnsignedLiteral(s) == Some(Text.DigitsValue(s))
    decreases |s|
  {
    if |s| > 1 {
      DigitsLiteral(s[1..]);
    }
    assert s[..|s|] == s;
  }

  /** The decimal text of an integer converts back to it. */
  lemma ToIntegerOfDecimal(n: int)
    ensures ToInteger(Str(Text.IntToString(n))) == Some(n)
  {
    var t := Text.IntToString(n);
    TrimOfDecimal(n);
    DecimalOfIntText(n);
    assert Text.Trim(t) == t && DecimalLiteral(t) == Some(n);
    TrimmedLiteral(t);
  }

  /** Text that trimming leaves as it is converts as a literal. */
  lemma TrimmedLiteral(s: string)
    requires s != [] && Text.Trim(s) == s
    ensures ToInteger(Str(s)) == DecimalLiteral(s)
  {
  }

  /** The decimal text of an integer is a literal of that integer. */
  lemma DecimalOfIntText(n: int)
    ensures DecimalLiteral(Text.IntToString(n)) == Some(n)
  {
    if n < 0 {
      var d := Text.NatToString(-n);
      Text.NatToStringRoundTrip(-n);
      SignedDigits('-', d);
      assert Text.IntToString(n) == ['-'] + d;
    } else {
      Text.NatToStringRoundTrip(n);
      UnsignedDigits(Text.NatToString(n));
    }
  }

  /** A plus sign before the digits is accepted. */
  lemma PlusSignAccepted(digits: string)
    requires digits != [] && Text.AllDigits(digits)
    ensures ToInteger(Str("+" + digits)) == Some(Text.DigitsValue(digits))
  {
    var s := "+" + digits;
    NoSpaceInLiteral(s[|s| - 1]);
    Text.TrimNoEdgeSpace(s);
    SignedDigits('+', digits);
  }

  /** Digits read as their value. */
  lemma UnsignedDigits(digits: string)
    requires digits != [] && Text.AllDigits(digits)
    ensures DecimalLiteral(digits) == Some(Text.DigitsValue(digits))
  {
    assert Text.IsDigit(digits[0]);
    DigitsLiteral(digits);
  }

  /** A sign and digits read as the signed value. */
  lemma SignedDigits(sign: char, digits: string)
    requires (sign == '-' || sign == '+') && digits != [] && Text.AllDigits(digits)
    ensures DecimalLiteral([sign] + digits) == Some(if sign == '-' then -(Text.DigitsValue(digits) as int) else Text.DigitsValue(digits) as int)
  {
    assert ([sign] + digits)[1..] == digits;
    DigitsLiteral(digits);
  }

  /** A fraction of zeros, empty or not, leaves the integer of the whole part. */
  lemma ZeroFractionAccepted(digits: string, zeros: string)
    requires digits != [] && Text.AllDigits(digits) && AllZeros(zeros)
    ensures ToInteger(Str(digits + "." + zeros)) == Some(Text.DigitsValue(digits))
  {
    PointedLiteral(digits, zeros);
  }

  /** A fraction with a non-zero digit is not an integer. */
  lemma NonZeroFractionRefused(digits: string, fraction: string)
    requires digits != [] && Text.AllDigits(digits) && Text.AllDigits(fraction) && !AllZeros(fraction)
    ensures ToInteger(Str(digits + "." + fraction)) == None
  {
    PointedLiteral(digits, fraction);
  }

  /** `digits.fraction` converts to the whole part exactly when the fraction is all zeros. */
  lemma PointedLiteral(digits: string, fraction: string)
    requires digits != [] && Text.AllDigits(digits) && Text.AllDigits(fraction)
    ensures ToInteger(Str(digits + "." + fraction)) == if AllZeros(fraction) then Some(Text.DigitsValue(digits)) else None
  {
    var s := digits + "." + fraction;
    NoSpaceInLiteral(s[0]);
    NoSpaceInLiteral(s[|s| - 1]);
    Text.TrimNoEdgeSpace(s);
    PointedValue(digits, fraction);
  }

  /** Digits and the point are not white space. */
  lemma NoSpaceInLiteral(c: char)
    requires Text.IsDigit(c) || c == '.'
    ensures !Text.IsSpace(c)
  {
  }

  /** The value of `digits.fraction` as a literal. */
  lemma PointedValue(digits: string, fraction: string)
    requires digits != [] && Text.AllDigits(digits) && Text.AllDigits(fraction)
    ensures DecimalLiteral(digits + "." + fraction) == if AllZeros(fraction) then Some(Text.DigitsValue(digits)) else None
  {
    var s := digits + "." + fraction;
    assert s[0] == digits[0];
    PointAfter(digits, fraction);
    assert s[..|digits|] == digits && s[|digits| + 1..] == fraction;
  }

  /** The first point of `digits + "." + rest` follows the digits. */
  lemma PointAfter(digits: string, rest: string)
    requires Text.AllDigits(digits)
    ensures PointIndex(digits + "." + rest) == |digits|
  {
    var s := digits + "." + rest;
    assert s[|digits|] == '.';
    assert forall i :: 0 <= i < |digits| ==> s[i] == digits[i];
  }

  lemma TrimOfDecimal(n: int)
    ensures Text.Trim(Text.IntToString(n)) == Text.IntToString(n)
  {
    var t := Text.IntToString(n);
    Text.IntToStringRoundTrip(n);
    assert t != [];
    if n < 0 {
      assert t[0] == '-' && Text.AllDigits(t[1..]);
    } else {
      assert Text.AllDigits(t);
    }
    Text.TrimNoEdgeSpace(t);
  }
}
