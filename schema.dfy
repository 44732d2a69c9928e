/** How the document layer turns a JSON request value into the value of a
    schema path before any validator runs (String and Number paths), and the
    `required` rule for each kind of path. */
module Schema {
  import opened Common

  /** The value a path receives: nothing (undefined or null), a value of the
      path's type, or a cast error that aborts the save. */
  datatype Cast<+T> = Missing | Cast(value: T) | CastFailed {
    /** The cast value, or `current` when there is none. */
    function GetOr(current: T): T {
      if Cast? then value else current
    }
  }

  /** Casting to a String path: strings stay, numbers and booleans are printed,
      arrays and plain objects cannot be cast. */
  function CastString(v: Json): (r: Cast<string>)
    ensures v.Str? ==> r == Cast(v.s)
    ensures (v.Undefined? || v.Null?) <==> r.Missing?
    ensures (v.Arr? || v.Obj?) <==> r.CastFailed?
  {
    match v
    case Undefined => Missing
    case Null => Missing
    case Bool(b) => Cast(if b then "true" else "false")
    case Num(n) => Cast(IntToString(n))
    case Str(s) => Cast(s)
    case Arr(_) => CastFailed
    case Obj(_) => CastFailed
  }

  /** Casting to a Number path: the empty string counts as null, numerals are
      read, booleans become 1 and 0, everything else is a cast error. */
  function CastNumber(v: Json): (r: Cast<int>)
    ensures v.Num? ==> r == Cast(v.n)
    ensures (v.Undefined? || v.Null? || v == Str("")) ==> r.Missing?
    ensures v.Str? && IsNumeral(v.s) ==> r == Cast(NumeralValue(v.s))
    ensures r.Missing? ==> v.Undefined? || v.Null? || v == Str("")
    ensures v.Bool? ==> r == Cast(if v.b then 1 else 0)
    ensures r.CastFailed? <==> v.Arr? || v.Obj? || (v.Str? && v.s != "" && !IsNumeral(v.s))
  {
    match v
    case Undefined => Missing
    case Null => Missing
    case Bool(b) => Cast(if b then 1 else 0)
    case Num(n) => Cast(n)
    case Str(s) =>
      if s == "" then Missing
      else if IsNumeral(s) then Cast(NumeralValue(s))
      else CastFailed
    case Arr(_) => CastFailed
    case Obj(_) => CastFailed
  }

  /** A required String path fails on a cast error, on nothing and on "". */
  predicate RequiredStringFails(c: Cast<string>) {
    !c.Cast? || c.value == ""
  }

  /** A required Number path fails on a cast error and on nothing. */
  predicate RequiredNumberFails(c: Cast<int>) {
    !c.Cast?
  }

  /** A character that occurs in no text JavaScript's `Number` reads as a
      number: an ASCII character that is not whitespace, not a digit, not a
      sign, point or exponent, not a letter of a radix prefix or a hexadecimal
      digit, and not a letter of "Infinity". */
  predicate OutsideNumberSyntax(c: char) {
    && c as int < 128
    && !IsSpace(c)
    && !('0' <= c <= '9')
    && c !in "+-.eExXoObBaAcCdDfFInity"
  }

  /** Text that `Number` reads as NaN because of one such character. */
  predicate NotANumber(s: string) {
    exists k :: 0 <= k < |s| && OutsideNumberSyntax(s[k])
  }

  /** Text that is not a number in the program is refused on a Number path
      in the model too. */
  lemma NotANumberRefused(s: string)
    requires NotANumber(s)
    ensures CastNumber(Str(s)) == CastFailed
  {
    var k :| 0 <= k < |s| && OutsideNumberSyntax(s[k]);
    assert !IsDigits(s) by { assert !('0' <= s[k] <= '9'); }
    if |s| > 1 && s[0] == '-' {
      assert k != 0;
      assert s[1..][k - 1] == s[k];
    }
  }

  /** A printed number casts back to itself on a Number path. */
  lemma CastNumberOfPrinted(n: int)
    ensures CastNumber(Str(IntToString(n))) == Cast(n)
  {
    IntToStringRoundTrip(n);
  }
}
