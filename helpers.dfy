/**
 * The plugin's shared helpers (includes/helpers.php) and the PHP value semantics they rely on:
 * loosely typed request values, truthiness, the (int) cast and WordPress's absint.
 */
module Helpers {
  import opened Common

  /** A loosely typed PHP value as it arrives from a request (query string or JSON body). */
  datatype Raw = RNull | RBool(b: bool) | RInt(i: int) | RStr(s: string) | RArray(items: seq<Raw>)

  /** PHP truthiness, as tested by `?:`, `empty` and `array_filter` without a callback. */
  predicate Truthy(r: Raw)
  {
    match r
    case RNull => false
    case RBool(b) => b
    case RInt(i) => i != 0
    case RStr(s) => s != "" && s != "0"
    case RArray(items) => items != []
  }

  predicate IsPhpSpace(c: char)
  {
    c == ' ' || c == '\t' || c == '\n' || c == '\r' || c as int == 11 || c as int == 12
  }

  function SkipSpaces(s: string): (r: string)
    ensures r <= s || (|r| <= |s| && r == s[|s| - |r|..])
    ensures r != [] ==> !IsPhpSpace(r[0])
  {
    if s != [] && IsPhpSpace(s[0]) then SkipSpaces(s[1..]) else s
  }

  /** PHP_INT_MAX and PHP_INT_MIN on the 64-bit builds WordPress runs on. */
  const PhpIntMax: int := 0x7FFF_FFFF_FFFF_FFFF
  const PhpIntMin: int := -0x8000_0000_0000_0000

  /** m × 10^k. */
  function ScaleUp(m: nat, k: nat): nat
  {
    if k == 0 then m else 10 * ScaleUp(m, k - 1)
  }

  /** ⌊m / 10^k⌋, one digit at a time. */
  function ScaleDown(m: nat, k: nat): nat
  {
    if k == 0 then m else ScaleDown(m / 10, k - 1)
  }

  /**
   * The number a string starts with: its sign, the digits of its mantissa (the integer and the
   * fraction part run together), how many of those digits follow the decimal point, and the
   * decimal exponent.
   */
  datatype Numeric = Numeric(negative: bool, mantissa: string, fraction: nat, exponent: int)

  predicate IsExponentMark(c: char) { c == 'e' || c == 'E' }

  /** The exponent after the mantissa: `e` or `E`, an optional sign and at least one digit; 0 when there is none. */
  function Exponent(s: string): int
  {
    if |s| >= 2 && IsExponentMark(s[0]) && IsDigit(s[1]) then DigitsValue(LeadingDigits(s[1..]))
    else if |s| >= 3 && IsExponentMark(s[0]) && s[1] == '+' && IsDigit(s[2]) then DigitsValue(LeadingDigits(s[2..]))
    else if |s| >= 3 && IsExponentMark(s[0]) && s[1] == '-' && IsDigit(s[2]) then 0 - DigitsValue(LeadingDigits(s[2..]))
    else 0
  }

  /**
   * PHP's leading-numeric-string rule: after white space and an optional sign, digits, then an
   * optional point with more digits, then an optional exponent. None when no digit starts it
   * (a lone point does not count).
   */
  function NumericPrefix(s: string): (r: Option<Numeric>)
    ensures r.Some? ==> AllDigits(r.value.mantissa) && r.value.fraction <= |r.value.mantissa|
  {
    var t := SkipSpaces(s);
    if t != [] && (t[0] == '-' || t[0] == '+') then UnsignedPrefix(t[1..], t[0] == '-')
    else UnsignedPrefix(t, false)
  }

  /** The number after the sign: the integer digits, then a fraction or an exponent. */
  function UnsignedPrefix(u: string, negative: bool): (r: Option<Numeric>)
    ensures r.Some? ==> AllDigits(r.value.mantissa) && r.value.fraction <= |r.value.mantissa|
  {
    var whole := LeadingDigits(u);
    var rest := u[|whole|..];
    if rest != [] && rest[0] == '.' then FractionPrefix(whole, rest[1..], negative)
    else if whole == [] then None
    else Some(Numeric(negative, whole, 0, Exponent(rest)))
  }

  /** After the point: the fraction digits join the mantissa, then the exponent. */
  function FractionPrefix(whole: string, r: string, negative: bool): (n: Option<Numeric>)
    requires AllDigits(whole)
    ensures n.Some? ==> AllDigits(n.value.mantissa) && n.value.fraction <= |n.value.mantissa|
  {
    var frac := LeadingDigits(r);
    if whole == [] && frac == [] then None
    else Some(Numeric(negative, whole + frac, |frac|, Exponent(r[|frac|..])))
  }

  /** |value| truncated toward zero: the mantissa times 10 to the exponent less the fraction digits. */
  function Magnitude(n: Numeric): nat
    requires AllDigits(n.mantissa)
  {
    var m := DigitsValue(n.mantissa);
    var k := n.exponent - n.fraction;
    if k >= 0 then ScaleUp(m, k) else ScaleDown(m, 0 - k)
  }

  /**
   * PHP 8's (int) cast of a string: the leading number, fraction and exponent included, truncated
   * toward zero and saturated at the 64-bit bounds; 0 when the string does not start with a number.
   */
  function StrToInt(s: string): (v: int)
    ensures PhpIntMin <= v <= PhpIntMax
    ensures NumericPrefix(s).None? ==> v == 0
  {
    match NumericPrefix(s)
    case None => 0
    case Some(n) =>
      if n.negative then 0 - Min(Magnitude(n), 0 - PhpIntMin) else Min(Magnitude(n), PhpIntMax)
  }

  /** The cast on a few strings a number box can produce: exponents and fractions count, trailing text does not. */
  /** The leading digits of digits followed by a non-digit are those digits. */
  lemma {:induction false} LeadingDigitsSplit(d: string, t: string)
    requires AllDigits(d) && (t == [] || !IsDigit(t[0]))
    ensures LeadingDigits(d + t) == d
  {
    if d != [] {
      assert (d + t)[1..] == d[1..] + t;
      LeadingDigitsSplit(d[1..], t);
    }
  }

  /** Digits followed by text that is neither a digit nor a point: the digits are the mantissa, the text may hold an exponent. */
  lemma UnsignedOfWhole(whole: string, tail: string, negative: bool)
    requires whole != [] && AllDigits(whole)
    requires tail == [] || (!IsDigit(tail[0]) && tail[0] != '.')
    ensures UnsignedPrefix(whole + tail, negative) == Some(Numeric(negative, whole, 0, Exponent(tail)))
  {
    LeadingDigitsSplit(whole, tail);
    assert (whole + tail)[|whole|..] == tail;
  }

  lemma NumericOfWhole(whole: string, tail: string)
    requires whole != [] && AllDigits(whole)
    requires tail == [] || (!IsDigit(tail[0]) && tail[0] != '.')
    ensures NumericPrefix(whole + tail) == Some(Numeric(false, whole, 0, Exponent(tail)))
  {
    assert (whole + tail)[0] == whole[0];
    NumericOfDigitFirst(whole + tail);
    UnsignedOfWhole(whole, tail, false);
  }

  /** A minus sign in front of a digit makes the number negative. */
  lemma NumericOfMinus(u: string)
    requires u != [] && IsDigit(u[0])
    ensures NumericPrefix(['-'] + u) == UnsignedPrefix(u, true)
  {
    assert SkipSpaces(['-'] + u) == ['-'] + u;
    assert (['-'] + u)[1..] == u;
  }

  /** A string that starts with a digit has no white space or sign to skip. */
  lemma NumericOfDigitFirst(s: string)
    requires s != [] && IsDigit(s[0])
    ensures NumericPrefix(s) == UnsignedPrefix(s, false)
  {
    assert SkipSpaces(s) == s;
  }

  /** Digits and a point: what follows the point is read as the fraction. */
  lemma UnsignedOfPointed(whole: string, r: string)
    requires AllDigits(whole)
    ensures UnsignedPrefix(whole + ['.'] + r, false) == FractionPrefix(whole, r, false)
  {
    var u := whole + ['.'] + r;
    assert u == whole + (['.'] + r);
    LeadingDigitsSplit(whole, ['.'] + r);
    assert u[|whole|..] == ['.'] + r;
    assert (['.'] + r)[1..] == r;
  }

  /** Fraction digits followed by text that is not a digit. */
  lemma FractionOfDigits(whole: string, frac: string, tail: string, negative: bool)
    requires AllDigits(whole) && AllDigits(frac) && (whole != [] || frac != [])
    requires tail == [] || !IsDigit(tail[0])
    ensures FractionPrefix(whole, frac + tail, negative) == Some(Numeric(negative, whole + frac, |frac|, Exponent(tail)))
  {
    LeadingDigitsSplit(frac, tail);
    assert (frac + tail)[|frac|..] == tail;
  }

  /** Digits, a point, more digits, then text that is not a digit: the fraction digits join the mantissa. */
  lemma NumericOfPointed(whole: string, frac: string, tail: string)
    requires whole != [] && AllDigits(whole) && AllDigits(frac)
    requires tail == [] || !IsDigit(tail[0])
    ensures NumericPrefix(whole + ['.'] + (frac + tail)) == Some(Numeric(false, whole + frac, |frac|, Exponent(tail)))
  {
    var s := whole + ['.'] + (frac + tail);
    assert s[0] == whole[0];
    NumericOfDigitFirst(s);
    UnsignedOfPointed(whole, frac + tail);
    FractionOfDigits(whole, frac, tail, false);
  }

  /** An `e` and digits are an exponent of those digits' value. */
  lemma ExponentOfDigits(d: string)
    requires d != [] && AllDigits(d)
    ensures Exponent("e" + d) == DigitsValue(d)
  {
    assert ("e" + d)[1..] == d;
    LeadingDigitsOfDigits(d);
  }

  /** An exponent multiplies by its power of ten: `(int)"25e2"` is 2500, saturating at PHP_INT_MAX. */
  lemma ExponentScales(whole: string, e: string)
    requires whole != [] && AllDigits(whole) && e != [] && AllDigits(e)
    ensures StrToInt(whole + ("e" + e)) == Min(ScaleUp(DigitsValue(whole), DigitsValue(e)), PhpIntMax)
  {
    ExponentOfDigits(e);
    NumericOfWhole(whole, "e" + e);
  }

  /** The fraction is truncated toward zero: `(int)"1.9"` is 1. */
  lemma FractionTruncated(whole: string, frac: string)
    requires whole != [] && AllDigits(whole) && AllDigits(frac)
    ensures StrToInt(whole + ['.'] + frac) == Min(DigitsValue(whole), PhpIntMax)
  {
    NumericOfPointed(whole, frac, []);
    assert frac + [] == frac;
    assert Exponent([]) == 0;
    DropFraction(whole, frac);
  }

  /** Dropping the last |frac| digits of whole + frac leaves whole. */
  lemma {:induction false} DropFraction(whole: string, frac: string)
    requires AllDigits(whole) && AllDigits(frac)
    ensures ScaleDown(DigitsValue(whole + frac), |frac|) == DigitsValue(whole)
  {
    if frac != [] {
      var f := frac[..|frac| - 1];
      assert (whole + frac)[..|whole + frac| - 1] == whole + f;
      assert DigitsValue(whole + frac) / 10 == DigitsValue(whole + f);
      DropFraction(whole, f);
    } else {
      assert whole + frac == whole;
    }
  }

  /** A value past the 64-bit range saturates: `(int)"-1e19"` is PHP_INT_MIN. */
  lemma NegativeOverflowSaturates(whole: string, e: string)
    requires whole != [] && AllDigits(whole) && e != [] && AllDigits(e)
    requires ScaleUp(DigitsValue(whole), DigitsValue(e)) >= 0 - PhpIntMin
    ensures StrToInt(['-'] + (whole + ("e" + e))) == PhpIntMin
  {
    ExponentOfDigits(e);
    UnsignedOfWhole(whole, "e" + e, true);
    assert (whole + ("e" + e))[0] == whole[0];
    NumericOfMinus(whole + ("e" + e));
  }

  /** The cast of "-1e19": 10^19 is past PHP_INT_MIN's magnitude of 2^63. */
  lemma MinusTenToNineteen()
    ensures StrToInt(['-'] + ("1" + ("e" + "19"))) == PhpIntMin
  {
    LeadingDigitsOfDigits("19");
    assert DigitsValue("19") == 19 && DigitsValue("1") == 1;
    TenToNineteen();
    NegativeOverflowSaturates("1", "19");
  }

  lemma TenToNineteen()
    ensures ScaleUp(1, 19) == 10_000_000_000_000_000_000
  {
    ScaleUpAdd(1, 4, 4);
    ScaleUpAdd(1, 8, 4);
    ScaleUpAdd(1, 12, 4);
    ScaleUpAdd(1, 16, 3);
    assert ScaleUp(1, 4) == 10_000;
    assert ScaleUp(10_000, 4) == 100_000_000;
    assert ScaleUp(100_000_000, 4) == 1_000_000_000_000;
    assert ScaleUp(1_000_000_000_000, 4) == 10_000_000_000_000_000;
    assert ScaleUp(10_000_000_000_000_000, 3) == 10_000_000_000_000_000_000;
  }

  lemma {:induction false} ScaleUpAdd(m: nat, a: nat, b: nat)
    ensures ScaleUp(m, a + b) == ScaleUp(ScaleUp(m, a), b)
  {
    if b > 0 { ScaleUpAdd(m, a, b - 1); }
  }

  /** PHP's (int) cast of any request value. */
  function IntVal(r: Raw): int
  {
    match r
    case RNull => 0
    case RBool(b) => if b then 1 else 0
    case RInt(i) => i
    case RStr(s) => StrToInt(s)
    case RArray(items) => if items == [] then 0 else 1
  }

  /** WordPress absint: abs((int) value). */
  function AbsInt(r: Raw): (n: nat)
    ensures n == IntVal(r) || n == -IntVal(r)
  {
    var v := IntVal(r);
    if v < 0 then -v else v
  }

  /** A run of digits is its own numeric prefix, with no fraction and no exponent. */
  lemma NumericOfDigits(d: string)
    requires d != [] && AllDigits(d)
    ensures NumericPrefix(d) == Some(Numeric(false, d, 0, 0))
  {
    NumericOfWhole(d, "");
    assert d + "" == d;
  }

  lemma DecimalStrToInt(n: nat)
    requires n <= PhpIntMax
    ensures StrToInt(NatToDecimal(n)) == n
    ensures AbsInt(RStr(NatToDecimal(n))) == n
  {
    var d := NatToDecimal(n);
    NumericOfDigits(d);
    DecimalRoundTrip(n);
    assert Magnitude(Numeric(false, d, 0, 0)) == n;
  }

  // ---------------------------------------------------------------- dcmm_sanitize_int_array

  /** absint of each element, in order, with the zeros removed and the indices renumbered. */
  function KeepPositive(items: seq<Raw>): (r: seq<int>)
    ensures |r| <= |items|
    ensures forall i :: 0 <= i < |r| ==> r[i] > 0
  {
    if items == [] then []
    else (if AbsInt(items[0]) > 0 then [AbsInt(items[0]) as int] else []) + KeepPositive(items[1..])
  }

  function SanitizeIntArray(input: Raw): (r: seq<int>)
    ensures !input.RArray? ==> r == []
    ensures forall i :: 0 <= i < |r| ==> r[i] > 0
  {
    match input
    case RArray(items) => KeepPositive(items)
    case _ => []
  }

  /** An integer is kept iff it is the (positive) absint of some input element. */
  lemma {:induction false} SanitizeMembers(items: seq<Raw>, v: int)
    ensures v in SanitizeIntArray(RArray(items)) <==>
            v > 0 && exists i :: 0 <= i < |items| && AbsInt(items[i]) == v
  {
    if items != [] {
      SanitizeMembers(items[1..], v);
      var rest := KeepPositive(items[1..]);
      if v > 0 && exists i :: 0 <= i < |items| && AbsInt(items[i]) == v {
        var i :| 0 <= i < |items| && AbsInt(items[i]) == v;
        if i > 0 { assert AbsInt(items[1..][i - 1]) == v; }
      }
      if v > 0 && exists i :: 0 <= i < |items[1..]| && AbsInt(items[1..][i]) == v {
        var i :| 0 <= i < |items[1..]| && AbsInt(items[1..][i]) == v;
        assert AbsInt(items[i + 1]) == v;
      }
    }
  }

  /** Input whose elements already absint to positive integers comes back unchanged, duplicates and order included. */
  lemma {:induction false} SanitizeExact(items: seq<Raw>, xs: seq<int>)
    requires |items| == |xs|
    requires forall i :: 0 <= i < |xs| ==> xs[i] > 0 && AbsInt(items[i]) == xs[i]
    ensures SanitizeIntArray(RArray(items)) == xs
  {
    if items != [] {
      SanitizeExact(items[1..], xs[1..]);
    }
  }

  /** A sanitized list re-sent as integers sanitizes to itself. */
  lemma SanitizeIdempotent(input: Raw)
    ensures var r := SanitizeIntArray(input);
            SanitizeIntArray(RArray(seq(|r|, i requires 0 <= i < |r| => RInt(r[i])))) == r
  {
    var r := SanitizeIntArray(input);
    SanitizeExact(seq(|r|, i requires 0 <= i < |r| => RInt(r[i])), r);
  }

  // ---------------------------------------------------------------- sort and order

  const AllowedSorts: seq<string> := ["email", "first_name", "last_name", "status", "created_at", "npa"]

  /** The sort column, or created_at when it is not on the allow-list. */
  function ValidateSort(sort: string): (r: string)
    ensures r in AllowedSorts
    ensures r == sort <==> sort in AllowedSorts
    ensures r != sort ==> r == "created_at"
  {
    if sort in AllowedSorts then sort else "created_at"
  }

  lemma ValidateSortIdempotent(sort: string)
    ensures ValidateSort(ValidateSort(sort)) == ValidateSort(sort)
  {
  }

  /** "ASC" exactly when the input lower-cases to "asc"; "DESC" for everything else. */
  function ValidateOrder(order: string): (r: string)
    ensures r == "ASC" || r == "DESC"
    ensures r == "ASC" <==> Lower(order) == "asc"
  {
    if Lower(order) == "asc" then "ASC" else "DESC"
  }

  lemma ValidateOrderIdempotent(order: string)
    ensures ValidateOrder(ValidateOrder(order)) == ValidateOrder(order)
  {
    assert Lower("ASC") == "asc";
    assert Lower("DESC")[0] == 'd';
  }

  // ---------------------------------------------------------------- dcmm_table

  const TableAliases: seq<string> :=
    ["subscribers", "custom_fields", "subscriber_custom_field", "tags", "subscriber_tag", "segments", "subscriber_segment"]

  /** A prefixed table name, or the request aborted by wp_die with the message it shows. */
  datatype TableLookup = Prefixed(name: string) | Aborted(message: string)

  /** The MailPoet table behind each known alias: the alias with the plugin's "mailpoet_" prefix. */
  function MailPoetTable(alias: string): (r: Option<string>)
    ensures r.Some? <==> alias in TableAliases
    ensures r.Some? ==> r.value == "mailpoet_" + alias
  {
    if alias in TableAliases then Some("mailpoet_" + alias) else None
  }

  function Table(alias: string, prefix: string): (r: TableLookup)
    ensures r.Prefixed? <==> alias in TableAliases
    ensures r.Prefixed? ==> r.name == prefix + "mailpoet_" + alias
    ensures r.Aborted? ==> r.message == "Unknown MailPoet table alias: " + alias
  {
    match MailPoetTable(alias)
    case Some(t) => assert prefix + t == prefix + "mailpoet_" + alias; Prefixed(prefix + t)
    case None => Aborted("Unknown MailPoet table alias: " + alias)
  }
}
