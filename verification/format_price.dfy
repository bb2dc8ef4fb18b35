/**
 * The number helpers of src/utils/formatPrice.js: `removeDecimal`, which
 * deletes the first '.' of a number's decimal text and parses the rest as an
 * integer, and `formatNumberWithUnits`, which scales the magnitude of that
 * integer down by thousands and names the unit.
 *
 * A JavaScript number enters as the text `Number.prototype.toString` gives
 * for it; a value that is not a number, or is NaN, enters as `NotANumber`.
 * The one-decimal rendering (`toFixed(1)`) is not modelled: the scaled
 * amount is returned as a real beside its unit.
 */
module FormatPrice {
  import opened Common
  import opened Strings

  /** The argument of the helpers: a number, as its decimal text, or anything else (including NaN). */
  datatype NumberArg = NotANumber | Number(text: string)

  predicate IsDigit(c: char) { '0' <= c <= '9' }

  predicate AllDigits(s: string) {
    forall i :: 0 <= i < |s| ==> IsDigit(s[i])
  }

  /** The value of a string of decimal digits. */
  function DigitsValue(s: string): nat
    requires AllDigits(s)
  {
    if s == [] then 0
    else DigitsValue(s[..|s| - 1]) * 10 + (s[|s| - 1] as int - '0' as int)
  }

  /** The longest prefix of `s` made of digits. */
  function DigitPrefix(s: string): (r: string)
    ensures AllDigits(r) && r <= s
    ensures |r| < |s| ==> !IsDigit(s[|r|])
  {
    if s == [] || !IsDigit(s[0]) then []
    else [s[0]] + DigitPrefix(s[1..])
  }

  /** On a string of digits the digit prefix is the whole string. */
  lemma {:induction false} DigitPrefixOfDigits(s: string)
    requires AllDigits(s)
    ensures DigitPrefix(s) == s
  {
    if s != [] {
      DigitPrefixOfDigits(s[1..]);
    }
  }

  /** The value of the leading run of digits of `s`; `None` when `s` does not start with a digit. */
  function LeadingDigits(s: string): Option<nat> {
    var digits := DigitPrefix(s);
    if digits == [] then None else Some(DigitsValue(digits))
  }

  /** A run made only of digits is read whole. */
  lemma LeadingDigitsOfDigits(digits: string)
    requires digits != [] && AllDigits(digits)
    ensures LeadingDigits(digits) == Some(DigitsValue(digits))
  {
    DigitPrefixOfDigits(digits);
  }

  /**
   * `parseInt(s, 10)` on the text of a number: an optional sign, then the
   * longest run of digits; `None` (NaN) when there is no digit.
   */
  function ParseInt(s: string): Option<int> {
    if |s| > 0 && s[0] == '-' then
      match LeadingDigits(s[1..]) case Some(v) => Some(-(v as int)) case None => None
    else if |s| > 0 && s[0] == '+' then
      match LeadingDigits(s[1..]) case Some(v) => Some(v as int) case None => None
    else
      match LeadingDigits(s) case Some(v) => Some(v as int) case None => None
  }

  /** What `removeDecimal` returns: "N/A", an integer, or NaN. */
  datatype Stripped = NotAvailable | Whole(value: int) | NaN

  /** `removeDecimal`: "N/A" for a non-number, else `parseInt` of the text without its first '.'. */
  function RemoveDecimal(arg: NumberArg): Stripped {
    match arg
    case NotANumber => NotAvailable
    case Number(text) =>
      match ParseInt(ReplaceFirst(text, ".", ""))
      case Some(v) => Whole(v)
      case None => NaN
  }

  /** The decimal text of an integer. */
  function IntText(k: int): string {
    if k < 0 then "-" + NatToString(-k) else NatToString(k)
  }

  lemma {:induction false} NatToStringValue(n: nat)
    ensures AllDigits(NatToString(n))
    ensures DigitsValue(NatToString(n)) == n
  {
    if n >= 10 {
      NatToStringValue(n / 10);
      var s := NatToString(n);
      assert s[..|s| - 1] == NatToString(n / 10);
    }
  }

  /** A text without '.' is left alone by the replacement. */
  lemma NoDotUnchanged(s: string)
    requires forall i :: 0 <= i < |s| ==> s[i] != '.'
    ensures ReplaceFirst(s, ".", "") == s
  {
    forall j | 0 <= j ensures !OccursAt(s, ".", j) {
      if j + 1 <= |s| {
        assert s[j..j + 1] == [s[j]];
      }
    }
    ReplaceFirstAbsent(s, ".", "");
  }

  lemma ParseDigits(digits: string)
    requires digits != [] && AllDigits(digits)
    ensures ParseInt(digits) == Some(DigitsValue(digits) as int)
  {
    assert IsDigit(digits[0]);
    LeadingDigitsOfDigits(digits);
  }

  lemma ParseMinusDigits(digits: string)
    requires digits != [] && AllDigits(digits)
    ensures ParseInt("-" + digits) == Some(-(DigitsValue(digits) as int))
  {
    var s := "-" + digits;
    assert s[0] == '-';
    assert s[1..] == digits;
    LeadingDigitsOfDigits(digits);
  }

  /** `parseInt` of a run of digits, with or without a leading minus. */
  lemma ParseSigned(negative: bool, digits: string)
    requires digits != [] && AllDigits(digits)
    ensures ParseInt((if negative then "-" else "") + digits) ==
            Some(if negative then -(DigitsValue(digits) as int) else DigitsValue(digits))
  {
    if negative {
      ParseMinusDigits(digits);
    } else {
      assert "" + digits == digits;
      ParseDigits(digits);
    }
  }

  /** `parseInt` reads back the decimal text of every integer. */
  lemma ParseIntText(k: int)
    ensures ParseInt(IntText(k)) == Some(k)
  {
    var n := if k < 0 then -k else k;
    NatToStringValue(n);
    ParseSigned(k < 0, NatToString(n));
    assert IntText(k) == (if k < 0 then "-" else "") + NatToString(n);
  }

  /** An integer passes through `removeDecimal` unchanged. */
  lemma RemoveDecimalInteger(k: int)
    ensures RemoveDecimal(Number(IntText(k))) == Whole(k)
  {
    var n := if k < 0 then -k else k;
    NatToStringValue(n);
    NoDotUnchanged(IntText(k));
    ParseIntText(k);
  }

  /** Deleting the first '.' of `p.b`, where `p` has no '.', leaves `p` followed by `b`. */
  lemma DeleteFirstDot(p: string, b: string)
    requires forall i :: 0 <= i < |p| ==> p[i] != '.'
    ensures ReplaceFirst(p + "." + b, ".", "") == p + b
  {
    var text := p + "." + b;
    var at := |p|;
    assert OccursAt(text, ".", at) by { assert text[at..at + 1] == "."; }
    forall j: nat | j < at ensures !OccursAt(text, ".", j) {
      assert text[j..j + 1] == [p[j]];
    }
    ReplaceFirstAt(text, ".", "", at);
    assert text[..at] == p;
    assert text[at + 1..] == b;
  }

  /**
   * A decimal text `[-]a.b` loses its point: the result is the integer whose
   * digits are those of `a` followed by those of `b` (12.5 becomes 125).
   */
  lemma RemoveDecimalFraction(negative: bool, a: string, b: string)
    requires a != [] && AllDigits(a) && AllDigits(b)
    ensures var text := (if negative then "-" else "") + a + "." + b;
            RemoveDecimal(Number(text)) == Whole(if negative then -(DigitsValue(a + b) as int) else DigitsValue(a + b))
  {
    var sign := if negative then "-" else "";
    var text := sign + a + "." + b;
    SignedDigitsHaveNoDot(sign, a);
    DeleteFirstDot(sign + a, b);
    assert ReplaceFirst(text, ".", "") == sign + (a + b);
    DigitsConcat(a, b);
    ParseSigned(negative, a + b);
  }

  lemma SignedDigitsHaveNoDot(sign: string, a: string)
    requires sign == "-" || sign == ""
    requires AllDigits(a)
    ensures forall i :: 0 <= i < |sign + a| ==> (sign + a)[i] != '.'
  {
    forall i | 0 <= i < |sign + a| ensures (sign + a)[i] != '.' {
      if i >= |sign| { assert (sign + a)[i] == a[i - |sign|]; }
    }
  }

  lemma DigitsConcat(a: string, b: string)
    requires AllDigits(a) && AllDigits(b)
    ensures AllDigits(a + b)
  {
    forall i | 0 <= i < |a + b| ensures IsDigit((a + b)[i]) {
      if i >= |a| { assert (a + b)[i] == b[i - |a|]; }
    }
  }

  lemma TwelvePointFive()
    ensures RemoveDecimal(Number("12.5")) == Whole(125)
  {
    RemoveDecimalFraction(false, "12", "5");
    assert "" + "12" + "." + "5" == "12.5";
    assert "12" + "5" == "125";
    assert DigitsValue("125") == 125 by {
      assert "125"[..2] == "12";
      assert "12"[..1] == "1";
    }
  }

  // ----------------------------------------------------------------- units

  const Units: seq<string> := ["", "K", "million", "billion", "trillion", "quadrillion"]

  function Pow1000(k: nat): (p: nat)
    ensures p >= 1
  {
    if k == 0 then 1 else 1000 * Pow1000(k - 1)
  }

  /** The unit index the scaling loop stops at when it has reached `u`. */
  function UnitFrom(m: nat, u: nat): nat
    requires u <= 5
    decreases 5 - u
  {
    if u < 5 && m >= Pow1000(u + 1) then UnitFrom(m, u + 1) else u
  }

  /**
   * The unit chosen for a magnitude is the least index whose next power of
   * 1000 exceeds it, capped at 5 ("quadrillion").
   */
  lemma {:induction false} UnitFromSpec(m: nat, u: nat)
    requires u <= 5
    ensures u <= UnitFrom(m, u) <= 5
    ensures UnitFrom(m, u) == 5 || m < Pow1000(UnitFrom(m, u) + 1)
    ensures forall k :: u < k <= UnitFrom(m, u) ==> m >= Pow1000(k)
    decreases 5 - u
  {
    if u < 5 && m >= Pow1000(u + 1) {
      UnitFromSpec(m, u + 1);
    }
  }

  /** What `formatNumberWithUnits` shows: "N/A", "NaN ", or an amount and its unit. */
  datatype UnitText = NotAvailableText | NaNText | Amount(scaled: real, unit: string)

  /** `scaled · 1000^u` is the magnitude `m`. */
  predicate Scales(scaled: real, u: nat, m: nat) {
    scaled * Pow1000(u) as real == m as real
  }

  /** One division of the loop keeps `scaled · 1000^u` equal to the magnitude. */
  lemma ScaleStep(scaled: real, m: nat, u: nat)
    requires Scales(scaled, u, m)
    ensures Scales(scaled / 1000.0, u + 1, m)
    ensures scaled >= 1000.0 <==> m >= Pow1000(u + 1)
  {
    var p := Pow1000(u) as real;
    assert Pow1000(u + 1) as real == 1000.0 * p;
    assert (scaled - 1000.0) * p == m as real - 1000.0 * p;
  }

  /** Where the loop stops, it has reached the unit `UnitFrom` chooses, and the amount is not negative. */
  lemma ScaleExit(scaled: real, m: nat, u: nat)
    requires u <= 5 && Scales(scaled, u, m)
    requires !(scaled >= 1000.0 && u < 5)
    ensures UnitFrom(m, u) == u
    ensures scaled >= 0.0
  {
    ScaleStep(scaled, m, u);
    var p := Pow1000(u) as real;
    assert scaled >= 0.0 by {
      if scaled < 0.0 { assert false; }
    }
  }

  function Magnitude(v: int): nat {
    if v < 0 then -v else v
  }

  /**
   * The scaling loop of `formatNumberWithUnits`: the magnitude divided by
   * 1000 while it is at least 1000 and a larger unit exists.
   */
  method ScaleToUnit(v: int) returns (scaled: real, unitIndex: nat)
    ensures unitIndex == UnitFrom(Magnitude(v), 0) && unitIndex < |Units|
    ensures Scales(scaled, unitIndex, Magnitude(v))
    ensures scaled >= 0.0
    ensures scaled < 1000.0 || unitIndex == |Units| - 1
  {
    var m := Magnitude(v);
    scaled := m as real;
    unitIndex := 0;
    while scaled >= 1000.0 && unitIndex < |Units| - 1
      invariant unitIndex <= 5
      invariant Scales(scaled, unitIndex, m)
      invariant UnitFrom(m, unitIndex) == UnitFrom(m, 0)
      decreases 5 - unitIndex
    {
      ScaleStep(scaled, m, unitIndex);
      scaled := scaled / 1000.0;
      unitIndex := unitIndex + 1;
    }
    ScaleExit(scaled, m, unitIndex);
  }

  /** `removeDecimal` answers "N/A" exactly for a non-number. */
  lemma RemoveDecimalNotAvailable(arg: NumberArg)
    ensures RemoveDecimal(arg).NotAvailable? <==> arg.NotANumber?
  {
  }

  /**
   * `formatNumberWithUnits`: "N/A" for a non-number; otherwise the magnitude
   * of `removeDecimal(number)` scaled down to its unit. The sign is dropped;
   * the amount is below 1000 unless the unit is "quadrillion".
   */
  method FormatNumberWithUnits(arg: NumberArg) returns (r: UnitText)
    ensures arg.NotANumber? <==> r == NotAvailableText
    ensures RemoveDecimal(arg).NaN? <==> r == NaNText
    ensures RemoveDecimal(arg).Whole? ==>
      var m := Magnitude(RemoveDecimal(arg).value);
      && r.Amount?
      && r.unit == Units[UnitFrom(m, 0)]
      && Scales(r.scaled, UnitFrom(m, 0), m)
      && r.scaled >= 0.0
      && (r.scaled < 1000.0 || r.unit == "quadrillion")
  {
    RemoveDecimalNotAvailable(arg);
    var stripped := RemoveDecimal(arg);
    match stripped {
      case NotAvailable => r := NotAvailableText;
      case NaN => r := NaNText;
      case Whole(v) =>
        var scaled, unitIndex := ScaleToUnit(v);
        r := Amount(scaled, Units[unitIndex]);
    }
  }
}
