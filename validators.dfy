/** The input validators: PHP values as they arrive from saved options and
    filter hooks, the numeric, tolerance, date and status-list checks. */
module Validators {
  import opened Money
  import opened Wrappers

  /** A PHP value as the validators see it (ints and floats are both Num). */
  datatype Mixed =
    | Null
    | Bool(b: bool)
    | Num(n: Dec)
    | Str(s: string)
    | Arr(elems: seq<Mixed>)

  /** PHP's empty(): null, false, 0, 0.0, "", "0" and the empty array. */
  predicate PhpEmpty(v: Mixed)
  {
    match v
    case Null => true
    case Bool(b) => !b
    case Num(n) => n.mantissa == 0
    case Str(s) => s == "" || s == "0"
    case Arr(xs) => xs == []
  }

  predicate IsDigit(c: char)
  {
    '0' <= c <= '9'
  }

  predicate AllDigits(s: string)
  {
    forall i :: 0 <= i < |s| ==> IsDigit(s[i])
  }

  /** The value of a string of decimal digits. */
  function DigitsValue(s: string): (n: nat)
    requires AllDigits(s)
    ensures s == [] ==> n == 0
  {
    if s == [] then 0
    else 10 * DigitsValue(s[..|s| - 1]) + (s[|s| - 1] as int - '0' as int)
  }

  lemma {:induction false} DigitsValueAppend(s: string, t: string)
    requires AllDigits(s) && AllDigits(t)
    ensures AllDigits(s + t)
    ensures DigitsValue(s + t) == DigitsValue(s) * Pow10(|t|) + DigitsValue(t)
    decreases |t|
  {
    assert AllDigits(s + t) by {
      forall i | 0 <= i < |s + t| ensures IsDigit((s + t)[i]) {
        if i < |s| { assert (s + t)[i] == s[i]; } else { assert (s + t)[i] == t[i - |s|]; }
      }
    }
    if t == [] {
      assert s + t == s;
    } else {
      var t' := t[..|t| - 1];
      assert (s + t)[..|s + t| - 1] == s + t';
      assert (s + t)[|s + t| - 1] == t[|t| - 1];
      assert AllDigits(t') by {
        forall i | 0 <= i < |t'| ensures IsDigit(t'[i]) { assert t'[i] == t[i]; }
      }
      DigitsValueAppend(s, t');
      var x, p, y, c := DigitsValue(s), Pow10(|t'|), DigitsValue(t'), t[|t| - 1] as int - '0' as int;
      assert DigitsValue(s + t) == 10 * DigitsValue(s + t') + c;
      assert DigitsValue(t) == 10 * y + c;
      assert Pow10(|t|) == 10 * p;
      ShiftDigit(x, p, y, c);
    }
  }

  lemma ShiftDigit(x: int, p: int, y: int, c: int)
    ensures 10 * (x * p + y) + c == x * (10 * p) + (10 * y + c)
  {
  }

  /** Index of the first '.' in s, or |s| when there is none. */
  function DotIndex(s: string): (k: nat)
    ensures k <= |s|
    ensures k < |s| ==> s[k] == '.'
    ensures forall i :: 0 <= i < k ==> s[i] != '.'
  {
    if s == [] then 0
    else if s[0] == '.' then 0
    else 1 + DotIndex(s[1..])
  }

  /** An unsigned decimal: digits, optionally one '.', more digits, at least one digit. */
  function ParseUnsigned(s: string): (r: Option<Dec>)
    ensures r.Some? ==> r.value.mantissa >= 0
  {
    var k := DotIndex(s);
    if k == |s| then
      if s != [] && AllDigits(s) then Some(Dec(DigitsValue(s), 0)) else None
    else
      var whole, frac := s[..k], s[k + 1..];
      if AllDigits(whole) && AllDigits(frac) && |whole| + |frac| > 0 then
        DigitsValueAppend(whole, frac);
        Some(Dec(DigitsValue(whole + frac), |frac|))
      else None
  }

  /** is_numeric() then floatval() on a string: an optional sign and an unsigned decimal. */
  function ParseNumeric(s: string): (r: Option<Dec>)
  {
    if s != [] && (s[0] == '+' || s[0] == '-') then
      match ParseUnsigned(s[1..])
      case None => None
      case Some(d) => Some(if s[0] == '-' then Dec(-d.mantissa, d.exponent) else d)
    else ParseUnsigned(s)
  }

  /** "12.345" reads as 12345 / 10^3: the parser accepts every digits-dot-digits string. */
  lemma ParseDecimalString(whole: string, frac: string)
    requires AllDigits(whole) && AllDigits(frac) && |whole| + |frac| > 0
    ensures AllDigits(whole + frac)
    ensures ParseNumeric(whole + "." + frac) == Some(Dec(DigitsValue(whole + frac), |frac|))
  {
    DigitsValueAppend(whole, frac);
    var s := whole + "." + frac;
    DotAt(whole, frac);
    assert s[..|whole|] == whole;
    assert s[|whole| + 1..] == frac;
    assert s[0] == if whole != [] then whole[0] else '.';
  }

  lemma DotAt(whole: string, frac: string)
    requires AllDigits(whole)
    ensures DotIndex(whole + "." + frac) == |whole|
    decreases |whole|
  {
    var s := whole + "." + frac;
    if whole != [] {
      assert s[1..] == whole[1..] + "." + frac;
      assert AllDigits(whole[1..]) by {
        forall i | 0 <= i < |whole[1..]| ensures IsDigit(whole[1..][i]) { assert whole[1..][i] == whole[i + 1]; }
      }
      assert s[0] == whole[0];
      DotAt(whole[1..], frac);
    }
  }

  /** A string that holds a letter is never numeric. */
  lemma LetterNotNumeric(s: string, i: nat)
    requires i < |s| && 'a' <= s[i] <= 'z'
    ensures ParseNumeric(s) == None
  {
    if s != [] && (s[0] == '+' || s[0] == '-') {
      assert s[1..][i - 1] == s[i];
      LetterNotUnsigned(s[1..], i - 1);
    } else {
      LetterNotUnsigned(s, i);
    }
  }

  lemma LetterNotUnsigned(s: string, i: nat)
    requires i < |s| && 'a' <= s[i] <= 'z'
    ensures ParseUnsigned(s) == None
  {
    var k := DotIndex(s);
    if k < |s| {
      var whole, frac := s[..k], s[k + 1..];
      if i < k { assert whole[i] == s[i]; } else { assert i != k; assert frac[i - k - 1] == s[i]; }
    }
  }

  /** The number a value stands for, when PHP's is_numeric() accepts it. */
  function NumericValue(v: Mixed): (r: Option<Dec>)
    ensures v.Num? ==> r == Some(v.n)
    ensures v.Null? || v.Bool? || v.Arr? || v == Str("") ==> r == None
  {
    match v
    case Num(n) => Some(n)
    case Str(s) => ParseNumeric(s)
    case _ => None
  }

  /** wc_tax_retrofit_validate_float: the number itself when it is numeric and
      within [min, max]; None (PHP false) otherwise. */
  function ValidateFloat(v: Mixed, min: Dec, max: Dec): (r: Option<Dec>)
    ensures r.Some? <==> NumericValue(v).Some? && DecLeq(min, NumericValue(v).value) && DecLeq(NumericValue(v).value, max)
    ensures r.Some? ==> r == NumericValue(v)
  {
    if v == Null || v == Str("") || v == Bool(false) then None
    else if NumericValue(v).None? then None
    else
      var f := NumericValue(v).value;
      if !DecLeq(min, f) || !DecLeq(f, max) then None else Some(f)
  }

  const MinTolerance: Dec := Dec(1, 3)
  const MaxTolerance: Dec := Dec(1, 0)
  const DefaultTolerance: Dec := Dec(1, 2)

  /** The admissible tolerances, [0.001, 1.0]. */
  predicate ToleranceInRange(t: Dec)
  {
    DecLeq(MinTolerance, t) && DecLeq(t, MaxTolerance)
  }

  /** wc_tax_retrofit_validate_tolerance: the value if it lies in [0.001, 1.0],
      otherwise the given default. */
  function ValidateTolerance(v: Mixed, default: Dec): (r: Dec)
    ensures r == default || ToleranceInRange(r)
    ensures NumericValue(v).Some? && ToleranceInRange(NumericValue(v).value) ==> r == NumericValue(v).value
    ensures (NumericValue(v).None? || !ToleranceInRange(NumericValue(v).value)) ==> r == default
  {
    match ValidateFloat(v, MinTolerance, MaxTolerance)
    case None => default
    case Some(f) => f
  }

  /** Tolerances in range are positive, so a zero drift never reaches them. */
  lemma InRangeTolerancePositive(t: Dec)
    requires ToleranceInRange(t)
    ensures t.mantissa > 0
  {
    assert MinTolerance.mantissa * Pow10(t.exponent) <= t.mantissa * Pow10(MinTolerance.exponent);
  }

  /** "0.05" read from a saved option is accepted unchanged. */
  lemma ToleranceFromString(d: Dec)
    ensures ValidateTolerance(Str("0.05"), d) == Dec(5, 2)
  {
    ParseDecimalString("0", "05");
    assert "0" + "." + "05" == "0.05";
    assert "0" + "05" == "005";
    assert DigitsValue("005") == 5 by {
      assert "005"[..2] == "00";
      assert "00"[..1] == "0";
    }
    assert ParseNumeric("0.05") == Some(Dec(5, 2));
    assert Pow10(2) == 100 && Pow10(3) == 1000;
    assert ToleranceInRange(Dec(5, 2));
  }

  /** "5", "abc" and 0.0001 are refused, and the default is used instead. */
  lemma ToleranceFallsBack(d: Dec)
    ensures ValidateTolerance(Str("5"), d) == d
    ensures ValidateTolerance(Str("abc"), d) == d
    ensures ValidateTolerance(Num(Dec(1, 4)), d) == d
  {
    assert ParseUnsigned("5") == Some(Dec(5, 0));
    LetterNotNumeric("abc", 0);
    assert Pow10(3) == 1000 && Pow10(4) == 10000;
  }

  /// Status lists

  /** The seven subscription statuses the plugin accepts. */
  const AllowedStatuses: seq<string> :=
    ["active", "on-hold", "pending-cancel", "pending", "cancelled", "expired", "switched"]

  const DefaultStatuses: seq<Mixed> := [Str("active"), Str("pending-cancel"), Str("on-hold")]

  /** in_array($status, $valid_statuses, true): a string equal to an allowed status. */
  predicate IsAllowedStatus(v: Mixed)
  {
    v.Str? && v.s in AllowedStatuses
  }

  /** The allowed entries of xs, in input order. */
  function AllowedOnly(xs: seq<Mixed>): (r: seq<Mixed>)
    ensures |r| <= |xs|
    ensures forall x :: x in r <==> x in xs && IsAllowedStatus(x)
    ensures (forall i :: 0 <= i < |xs| ==> IsAllowedStatus(xs[i])) ==> r == xs
  {
    if xs == [] then []
    else
      var rest := AllowedOnly(xs[..|xs| - 1]);
      var x := xs[|xs| - 1];
      assert xs == xs[..|xs| - 1] + [x];
      if IsAllowedStatus(x) then rest + [x] else rest
  }

  /** A single entry is kept exactly when it is an allowed status. */
  lemma AllowedOnlySingle(x: Mixed)
    ensures AllowedOnly([x]) == if IsAllowedStatus(x) then [x] else []
  {
    assert [x][..0] == [];
  }

  /** The filter works entry by entry: the kept entries of two lists put
      together are the kept entries of the first followed by those of the
      second, so the result keeps the input's order and multiplicity. */
  lemma {:induction false} AllowedOnlyAppend(xs: seq<Mixed>, ys: seq<Mixed>)
    ensures AllowedOnly(xs + ys) == AllowedOnly(xs) + AllowedOnly(ys)
    decreases |ys|
  {
    if ys == [] {
      assert xs + ys == xs;
    } else {
      var y := ys[|ys| - 1];
      var ys' := ys[..|ys| - 1];
      assert (xs + ys)[..|xs + ys| - 1] == xs + ys';
      assert (xs + ys)[|xs + ys| - 1] == y;
      AllowedOnlyAppend(xs, ys');
    }
  }

  /** The order the source's foreach gives: of [a, b, c] with b refused, the
      result is [a, c], in that order, and never [c, a]. */
  lemma AllowedOnlyExample(a: Mixed, b: Mixed, c: Mixed)
    requires IsAllowedStatus(a) && !IsAllowedStatus(b) && IsAllowedStatus(c)
    ensures AllowedOnly([a, b, c]) == [a, c]
  {
    AllowedOnlySingle(a);
    AllowedOnlySingle(b);
    AllowedOnlySingle(c);
    AllowedOnlyAppend([a], [b]);
    assert [a] + [b] == [a, b];
    AllowedOnlyAppend([a, b], [c]);
    assert [a, b] + [c] == [a, b, c];
  }

  /** wc_tax_retrofit_validate_statuses as a value: the allowed entries of an
      array, in order, or the default when the input is not an array, is empty,
      or keeps nothing. */
  function ValidStatuses(v: Mixed, default: seq<Mixed>): (r: seq<Mixed>)
  {
    if !v.Arr? || v.elems == [] then default
    else
      var kept := AllowedOnly(v.elems);
      if kept == [] then default else kept
  }

  /** Either every entry of the result is allowed and came from the input,
      or the result is the default. */
  lemma ValidStatusesShape(v: Mixed, default: seq<Mixed>)
    ensures var r := ValidStatuses(v, default);
      r == default ||
      (v.Arr? && r != [] && forall x :: x in r ==> x in v.elems && IsAllowedStatus(x))
    ensures v.Arr? && AllowedOnly(v.elems) != [] ==> ValidStatuses(v, default) == AllowedOnly(v.elems)
    ensures !v.Arr? || AllowedOnly(v.elems) == [] ==> ValidStatuses(v, default) == default
  {
    if v.Arr? && v.elems == [] { assert AllowedOnly(v.elems) == []; }
  }

  /** Validating a validated list again changes nothing, when the default is a valid list. */
  lemma {:induction false} ValidStatusesIdempotent(v: Mixed, default: seq<Mixed>, default2: seq<Mixed>)
    requires default != [] && forall i :: 0 <= i < |default| ==> IsAllowedStatus(default[i])
    ensures ValidStatuses(Arr(ValidStatuses(v, default)), default2) == ValidStatuses(v, default)
  {
    var r := ValidStatuses(v, default);
    assert r != [] && forall i :: 0 <= i < |r| ==> IsAllowedStatus(r[i]);
    assert AllowedOnly(r) == r;
  }

  /** One pass of the foreach: the next entry is appended when it is allowed. */
  lemma AllowedOnlyStep(xs: seq<Mixed>, i: nat)
    requires i < |xs|
    ensures IsAllowedStatus(xs[i]) ==> AllowedOnly(xs[..i + 1]) == AllowedOnly(xs[..i]) + [xs[i]]
    ensures !IsAllowedStatus(xs[i]) ==> AllowedOnly(xs[..i + 1]) == AllowedOnly(xs[..i])
  {
    assert xs[..i + 1] == xs[..i] + [xs[i]];
    AllowedOnlyAppend(xs[..i], [xs[i]]);
    AllowedOnlySingle(xs[i]);
    assert AllowedOnly(xs[..i]) + [] == AllowedOnly(xs[..i]);
  }

  /** wc_tax_retrofit_validate_statuses, with its foreach loop. */
  method ValidateStatuses(v: Mixed, default: seq<Mixed>) returns (r: seq<Mixed>)
    ensures r == ValidStatuses(v, default)
  {
    if !v.Arr? || v.elems == [] {
      return default;
    }
    var xs := v.elems;
    var kept: seq<Mixed> := [];
    var i := 0;
    while i < |xs|
      invariant 0 <= i <= |xs|
      invariant kept == AllowedOnly(xs[..i])
    {
      AllowedOnlyStep(xs, i);
      if IsAllowedStatus(xs[i]) {
        kept := kept + [xs[i]];
      }
      i := i + 1;
    }
    assert xs[..|xs|] == xs;
    r := if kept == [] then default else kept;
  }

  /// Dates

  predicate ShapeYmd(s: string)
  {
    |s| == 10 && s[4] == '-' && s[7] == '-' &&
    AllDigits(s[..4]) && AllDigits(s[5..7]) && AllDigits(s[8..])
  }

  /** preg_match('/^\d{4}-\d{2}-\d{2}$/'): PCRE's $ also matches before one final newline. */
  predicate MatchesYmd(s: string)
  {
    ShapeYmd(s) || (|s| == 11 && s[10] == '\n' && ShapeYmd(s[..10]))
  }

  predicate LeapYear(y: int)
  {
    y % 4 == 0 && (y % 100 != 0 || y % 400 == 0)
  }

  function DaysInMonth(y: int, m: int): (n: int)
    requires 1 <= m <= 12
    ensures 28 <= n <= 31
  {
    if m == 2 then (if LeapYear(y) then 29 else 28)
    else if m == 4 || m == 6 || m == 9 || m == 11 then 30
    else 31
  }

  predicate IsCalendarDate(y: int, m: int, d: int)
  {
    0 <= y <= 9999 && 1 <= m <= 12 && 1 <= d <= DaysInMonth(y, m)
  }

  function YearOf(s: string): nat requires ShapeYmd(s) { DigitsValue(s[..4]) }
  function MonthOf(s: string): nat requires ShapeYmd(s) { DigitsValue(s[5..7]) }
  function DayOf(s: string): nat requires ShapeYmd(s) { DigitsValue(s[8..]) }

  /** DateTime::createFromFormat('Y-m-d', s) followed by format('Y-m-d') gives s
      back exactly: no trailing data, and no day or month that overflows. */
  predicate ReformatsToItself(s: string)
  {
    ShapeYmd(s) && IsCalendarDate(YearOf(s), MonthOf(s), DayOf(s))
  }

  /** wc_tax_retrofit_validate_date: the string itself when it is a real
      calendar date written Y-m-d, None (PHP false) otherwise. */
  function ValidateDate(v: Mixed): (r: Option<string>)
    ensures r.Some? ==>
      (v == Str(r.value) && ShapeYmd(r.value) &&
       IsCalendarDate(YearOf(r.value), MonthOf(r.value), DayOf(r.value)))
  {
    if PhpEmpty(v) || !v.Str? then None
    else if !MatchesYmd(v.s) then None
    else if !ReformatsToItself(v.s) then None
    else Some(v.s)
  }

  function DigitChar(n: nat): (c: char)
    requires n < 10
    ensures IsDigit(c)
  {
    ('0' as int + n) as char
  }

  function Pad2(n: nat): (s: string)
    requires n < 100
  {
    [DigitChar(n / 10), DigitChar(n % 10)]
  }

  function Pad4(n: nat): (s: string)
    requires n < 10000
  {
    [DigitChar(n / 1000), DigitChar(n / 100 % 10), DigitChar(n / 10 % 10), DigitChar(n % 10)]
  }

  /** format('Y-m-d') of a calendar date. */
  function FormatYmd(y: nat, m: nat, d: nat): (s: string)
    requires y < 10000 && m < 100 && d < 100
  {
    Pad4(y) + "-" + Pad2(m) + "-" + Pad2(d)
  }

  lemma Pad2Value(n: nat)
    requires n < 100
    ensures AllDigits(Pad2(n)) && DigitsValue(Pad2(n)) == n
  {
    var s := Pad2(n);
    assert s[..1] == [s[0]];
    assert DigitsValue(s[..1]) == n / 10;
  }

  lemma Pad4Value(n: nat)
    requires n < 10000
    ensures AllDigits(Pad4(n)) && DigitsValue(Pad4(n)) == n
  {
    var s := Pad4(n);
    assert n / 100 == 10 * (n / 1000) + n / 100 % 10;
    assert n / 10 == 10 * (n / 100) + n / 10 % 10;
    assert n == 10 * (n / 10) + n % 10;
    assert s[..3][..2][..1] == [s[0]];
    assert s[..3][..2] == s[..2];
    assert DigitsValue(s[..1]) == n / 1000;
    assert DigitsValue(s[..2]) == n / 100;
    assert DigitsValue(s[..3]) == n / 10;
  }

  /** Every calendar date, written Y-m-d, passes validation unchanged. */
  lemma FormattedDatesValidate(y: nat, m: nat, d: nat)
    requires IsCalendarDate(y, m, d)
    ensures ValidateDate(Str(FormatYmd(y, m, d))) == Some(FormatYmd(y, m, d))
  {
    var s := FormatYmd(y, m, d);
    Pad4Value(y); Pad2Value(m); Pad2Value(d);
    assert s[..4] == Pad4(y);
    assert s[5..7] == Pad2(m);
    assert s[8..] == Pad2(d);
    assert ShapeYmd(s);
    assert s != "0";
  }

  /** Conversely, every accepted string is a calendar date written Y-m-d. */
  lemma ValidatedDatesAreFormatted(v: Mixed)
    requires ValidateDate(v).Some?
    ensures var s := ValidateDate(v).value;
      ShapeYmd(s) && IsCalendarDate(YearOf(s), MonthOf(s), DayOf(s)) &&
      s == FormatYmd(YearOf(s), MonthOf(s), DayOf(s))
  {
    var s := ValidateDate(v).value;
    DigitsBack4(s[..4]);
    DigitsBack2(s[5..7]);
    DigitsBack2(s[8..]);
    var f := FormatYmd(YearOf(s), MonthOf(s), DayOf(s));
    assert s == s[..4] + "-" + s[5..7] + "-" + s[8..];
  }

  lemma DigitsBack2(t: string)
    requires |t| == 2 && AllDigits(t)
    ensures DigitsValue(t) < 100 && Pad2(DigitsValue(t)) == t
  {
    assert t[..1] == [t[0]];
    var n := DigitsValue(t);
    assert n == 10 * (t[0] as int - '0' as int) + (t[1] as int - '0' as int);
  }

  lemma DigitsBack4(t: string)
    requires |t| == 4 && AllDigits(t)
    ensures DigitsValue(t) < 10000 && Pad4(DigitsValue(t)) == t
  {
    assert t[..3][..2][..1] == [t[0]];
    assert t[..3][..2] == t[..2];
    var a, b, c, d := t[0] as int - '0' as int, t[1] as int - '0' as int, t[2] as int - '0' as int, t[3] as int - '0' as int;
    assert DigitsValue(t[..2]) == 10 * a + b;
    assert DigitsValue(t[..3]) == 100 * a + 10 * b + c;
    var n := DigitsValue(t);
    assert n == 1000 * a + 100 * b + 10 * c + d;
    FourDigits(a, b, c, d);
    var p := Pad4(n);
    assert p[0] == t[0] && p[1] == t[1] && p[2] == t[2] && p[3] == t[3];
  }

  lemma FourDigits(a: int, b: int, c: int, d: int)
    requires 0 <= a < 10 && 0 <= b < 10 && 0 <= c < 10 && 0 <= d < 10
    ensures var n := 1000 * a + 100 * b + 10 * c + d;
      n / 1000 == a && n / 100 % 10 == b && n / 10 % 10 == c && n % 10 == d
  {
    var n := 1000 * a + 100 * b + 10 * c + d;
    DivBy(n, 1000, a, 100 * b + 10 * c + d);
    DivBy(n, 100, 10 * a + b, 10 * c + d);
    DivBy(10 * a + b, 10, a, b);
    DivBy(n, 10, 100 * a + 10 * b + c, d);
    DivBy(100 * a + 10 * b + c, 10, 10 * a + b, c);
  }

  /** Dates that do not exist, or that carry a trailing newline, are refused. */
  lemma RejectedDates()
    ensures ValidateDate(Str("2024-13-45")) == None
    ensures ValidateDate(Str("2023-02-29")) == None
    ensures ValidateDate(Str("2024-01-15\n")) == None
    ensures ValidateDate(Num(Dec(20240115, 0))) == None
  {
    var s := "2024-13-45";
    assert s[5..7] == "13";
    assert DigitsValue("13") == 13;
    var t := "2023-02-29";
    assert t[..4] == "2023";
    assert t[5..7] == "02";
    assert t[8..] == "29";
    assert DigitsValue("2023") == 2023 by { assert "2023"[..3] == "202"; assert "202"[..2] == "20"; assert "20"[..1] == "2"; }
    assert DigitsValue("02") == 2 by { assert "02"[..1] == "0"; }
    assert DigitsValue("29") == 29 by { assert "29"[..1] == "2"; }
  }

  /** 2024 is a leap year, so its 29 February is accepted. */
  lemma LeapDayAccepted()
    ensures ValidateDate(Str("2024-02-29")) == Some("2024-02-29")
  {
    FormattedDatesValidate(2024, 2, 29);
    assert FormatYmd(2024, 2, 29) == "2024-02-29";
  }
}
