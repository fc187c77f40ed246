/**
 * The field formatters every layout generator re-implements: `str.zfill` for registry
 * numbers (CNPJ to 14, CPF to 11), fixed-point amounts with a fixed number of fraction
 * digits, `strftime("%Y-%m-%d")` dates and `isoformat() + "Z"` timestamps.
 */
module Formatters {
  import opened Text
  import opened Wrappers

  const CNPJ_WIDTH := 14
  const CPF_WIDTH := 11
  const COMPE_WIDTH := 3
  const ISPB_WIDTH := 8

  function Max(a: int, b: int): int
  {
    if a >= b then a else b
  }

  predicate IsSign(c: char)
  {
    c == '+' || c == '-'
  }

  lemma LeadingZerosKeepDigits(k: nat, s: string)
    ensures IsDigits(s) ==> IsDigits(Zeros(k) + s) && DigitsValue(Zeros(k) + s) == DigitsValue(s)
  {
    if IsDigits(s) {
      DigitsValueLeadingZeros(k, s);
    }
  }

  /**
   * Python's `s.zfill(width)`: pads on the left with '0' up to `width`, inserting the padding
   * after a leading sign; a string already `width` long or longer comes back unchanged.
   */
  function ZFill(s: string, width: int): (r: string)
    ensures |r| == Max(|s|, width)
    ensures |s| >= width ==> r == s
    ensures !(|s| > 0 && IsSign(s[0])) ==>
      EndsWith(r, s) && forall i | 0 <= i < |r| - |s| :: r[i] == '0'
    ensures |s| > 0 && IsSign(s[0]) ==>
      r[0] == s[0] && EndsWith(r, s[1..]) && forall i | 1 <= i < |r| - |s| + 1 :: r[i] == '0'
    ensures IsDigits(s) ==> IsDigits(r) && DigitsValue(r) == DigitsValue(s)
  {
    if |s| >= width then
      s
    else if |s| > 0 && IsSign(s[0]) then
      var r := [s[0]] + Zeros(width - |s|) + s[1..];
      assert r[|r| - |s[1..]|..] == s[1..];
      r
    else
      LeadingZerosKeepDigits(width - |s|, s);
      var r := Zeros(width - |s|) + s;
      assert r[|r| - |s|..] == s;
      r
  }

  /** `format_cnpj`: `cnpj.zfill(14)`. */
  function FormatCnpj(cnpj: string): (r: string)
    ensures |r| == Max(|cnpj|, CNPJ_WIDTH)
    ensures |cnpj| >= CNPJ_WIDTH ==> r == cnpj
    ensures IsDigits(cnpj) ==> IsDigits(r) && DigitsValue(r) == DigitsValue(cnpj)
  {
    ZFill(cnpj, CNPJ_WIDTH)
  }

  /** `format_cpf`: `cpf.zfill(11)`. */
  function FormatCpf(cpf: string): (r: string)
    ensures |r| == Max(|cpf|, CPF_WIDTH)
    ensures |cpf| >= CPF_WIDTH ==> r == cpf
    ensures IsDigits(cpf) ==> IsDigits(r) && DigitsValue(r) == DigitsValue(cpf)
  {
    ZFill(cpf, CPF_WIDTH)
  }

  /** Python's `str(i)` for an integer. */
  function IntToString(i: int): (r: string)
    ensures i >= 0 ==> IsDigits(r) && |r| >= 1 && DigitsValue(r) == i && (r[0] == '0' ==> i == 0)
    ensures i < 0 ==> |r| >= 2 && r[0] == '-' && IsDigits(r[1..]) && DigitsValue(r[1..]) == -i
  {
    if i < 0 then "-" + NatToString(-i) else NatToString(i)
  }

  /** `int(s)` on what `str(i)` writes: an optional '-' followed by decimal digits. */
  function ParseInt(s: string): (r: Option<int>)
    ensures r.Some? ==> |s| >= 1
  {
    ParseFixed(s, 0)
  }

  /** `str(i)` reads back as `i`. */
  lemma IntToStringReadsBack(i: int)
    ensures ParseInt(IntToString(i)) == Some(i)
  {
    assert IntToString(i) == FormatDecimal(i, 0);
    FormatDecimalReadsBack(i, 0);
  }

  lemma ShortNumberFits(n: nat, width: nat)
    ensures width >= 1 && n < Pow10(width) ==> |NatToString(n)| <= width
  {
    if width >= 1 {
      NatToStringLength(n, width);
    }
  }

  /** `f"{n:0{width}d}"` for a non-negative `n`: the decimal digits of `n`, zero-filled to `width`. */
  function PadNat(n: nat, width: nat): (r: string)
    ensures IsDigits(r) && DigitsValue(r) == n
    ensures |r| >= width
    ensures width >= 1 && n < Pow10(width) ==> |r| == width
  {
    ShortNumberFits(n, width);
    ZFill(NatToString(n), width)
  }

  /** The unsigned part of a fixed-point literal: digits, then for `decimals > 0` a '.' and exactly `decimals` digits. */
  function ParseMagnitude(body: string, decimals: nat): Option<nat>
  {
    if decimals == 0 then
      if |body| >= 1 && IsDigits(body) then Some(DigitsValue(body)) else None
    else if && |body| >= decimals + 2
            && body[|body| - decimals - 1] == '.'
            && IsDigits(body[..|body| - decimals - 1])
            && IsDigits(body[|body| - decimals..]) then
      Some(DigitsValue(body[..|body| - decimals - 1]) * Pow10(decimals) + DigitsValue(body[|body| - decimals..]))
    else
      None
  }

  /**
   * Reads back an amount written with exactly `decimals` fraction digits, as an integer count
   * of units of 10^-decimals: an optional '-', integer digits, '.', then the fraction digits.
   */
  function ParseFixed(s: string, decimals: nat): Option<int>
  {
    var negative := |s| > 0 && s[0] == '-';
    match ParseMagnitude(if negative then s[1..] else s, decimals)
    case None => None
    case Some(m) => Some(if negative then -(m as int) else m as int)
  }

  /**
   * `format_decimal(value, decimals)`, i.e. `f"{value:.{decimals}f}"`, on a fixed-point amount:
   * `v` counts units of 10^-decimals (cents when `decimals` is 2).
   */
  function FormatDecimal(v: int, decimals: nat): (r: string)
    ensures |r| >= 1 && (r[0] == '-' <==> v < 0)
    ensures decimals > 0 ==> HasFraction(r, decimals)
  {
    var m: nat := if v < 0 then -v else v;
    var sign := if v < 0 then "-" else "";
    var body := FixedBody(m, decimals);
    SignedBody(sign, body, decimals);
    sign + body
  }

  /** A digit-led body keeps its fraction behind an optional '-', which alone marks the sign. */
  lemma SignedBody(sign: string, body: string, decimals: nat)
    requires sign == "" || sign == "-"
    requires |body| >= 1 && IsDigit(body[0]) && (decimals > 0 ==> HasFraction(body, decimals))
    ensures |sign + body| >= 1 && ((sign + body)[0] == '-' <==> sign == "-")
    ensures decimals > 0 ==> HasFraction(sign + body, decimals)
  {
    var r := sign + body;
    if decimals > 0 {
      assert r[|r| - decimals..] == body[|body| - decimals..];
      assert r[|r| - decimals - 1] == body[|body| - decimals - 1];
    }
    if sign == "" {
      assert r == body;
    }
  }

  /** An amount written by `FormatDecimal` reads back as the same amount. */
  lemma FormatDecimalReadsBack(v: int, decimals: nat)
    ensures ParseFixed(FormatDecimal(v, decimals), decimals) == Some(v)
  {
    var m: nat := if v < 0 then -v else v;
    SignedParse(v < 0, FixedBody(m, decimals), decimals);
  }

  /** `s` ends with a '.' followed by exactly `decimals` digits. */
  predicate HasFraction(s: string, decimals: nat)
  {
    |s| >= decimals + 2 && s[|s| - decimals - 1] == '.' && IsDigits(s[|s| - decimals..])
  }

  /** The unsigned text of `m` units of 10^-decimals. */
  function FixedBody(m: nat, decimals: nat): (body: string)
    ensures |body| >= 1 && IsDigit(body[0])
    ensures ParseMagnitude(body, decimals) == Some(m)
    ensures decimals > 0 ==> HasFraction(body, decimals)
  {
    if decimals == 0 then
      NatToString(m)
    else
      var (q, r) := DivMod(m, Pow10(decimals));
      FractionText(q, r, decimals)
  }

  /** Integer part `q` and `decimals` fraction digits for `r`, separated by '.'. */
  function FractionText(q: nat, r: nat, decimals: nat): (body: string)
    requires decimals >= 1 && r < Pow10(decimals)
    ensures |body| >= 1 && IsDigit(body[0])
    ensures ParseMagnitude(body, decimals) == Some(q * Pow10(decimals) + r)
    ensures HasFraction(body, decimals)
  {
    var whole := NatToString(q);
    var fraction := PadNat(r, decimals);
    MagnitudeOfFraction(whole, fraction, decimals, q, r);
    FractionShape(whole, fraction, decimals);
    whole + "." + fraction
  }

  /** Quotient and remainder of `m` by a positive `scale`. */
  function DivMod(m: nat, scale: nat): (qr: (nat, nat))
    requires scale >= 1
    ensures qr.1 < scale && qr.0 * scale + qr.1 == m
  {
    (m / scale, m % scale)
  }

  lemma MagnitudeOfFraction(whole: string, fraction: string, decimals: nat, q: nat, r: nat)
    requires |whole| >= 1 && IsDigits(whole) && IsDigits(fraction) && |fraction| == decimals >= 1
    requires DigitsValue(whole) == q && DigitsValue(fraction) == r
    ensures ParseMagnitude(whole + "." + fraction, decimals) == Some(q * Pow10(decimals) + r)
  {
    var body := whole + "." + fraction;
    var k := |body| - decimals - 1;
    assert body[..k] == whole;
    assert body[k] == '.';
    assert body[|body| - decimals..] == fraction;
    assert DigitsValue(body[..k]) == q && DigitsValue(body[|body| - decimals..]) == r;
  }

  lemma FractionShape(whole: string, fraction: string, decimals: nat)
    requires |whole| >= 1 && IsDigits(whole) && IsDigits(fraction) && |fraction| == decimals
    ensures var body := whole + "." + fraction;
      && |body| >= 1 && IsDigit(body[0])
      && HasFraction(body, decimals)
  {
    var body := whole + "." + fraction;
    assert body[0] == whole[0];
    assert body[|body| - decimals..] == fraction;
  }

  lemma SignedParse(negative: bool, body: string, decimals: nat)
    requires |body| >= 1 && body[0] != '-'
    ensures var r := (if negative then "-" else "") + body;
      ParseFixed(r, decimals) == match ParseMagnitude(body, decimals)
        case None => None
        case Some(m) => Some(if negative then -(m as int) else m as int)
  {
    var r := (if negative then "-" else "") + body;
    if negative {
      assert r[0] == '-' && r[1..] == body;
    } else {
      assert r == body;
    }
  }


  /** Amounts are always written with two fraction digits. */
  const AMOUNT_DECIMALS := 2

  /** The `format_decimal(value)` call every layout makes: two fraction digits, `value` in cents. */
  function FormatAmount(cents: int): (r: string)
    ensures HasFraction(r, AMOUNT_DECIMALS)
    ensures r[0] == '-' <==> cents < 0
  {
    FormatDecimal(cents, AMOUNT_DECIMALS)
  }

  /** An amount written by `FormatAmount` reads back as the same number of cents. */
  lemma FormatAmountReadsBack(cents: int)
    ensures ParseFixed(FormatAmount(cents), AMOUNT_DECIMALS) == Some(cents)
  {
    FormatDecimalReadsBack(cents, AMOUNT_DECIMALS);
  }

  // ---------------------------------------------------------------- dates and times

  predicate IsLeapYear(y: int)
  {
    y % 4 == 0 && (y % 100 != 0 || y % 400 == 0)
  }

  function DaysInMonth(y: int, m: int): int
  {
    if m == 2 then (if IsLeapYear(y) then 29 else 28)
    else if m == 4 || m == 6 || m == 9 || m == 11 then 30
    else 31
  }

  predicate IsCalendarDay(y: int, m: int, d: int)
  {
    1 <= m <= 12 && 1 <= d <= DaysInMonth(y, m)
  }

  datatype CalendarDate = CalendarDate(year: int, month: int, day: int)

  /** A date as Python's `datetime` holds it; `%Y` is taken to print four digits (years 1000 to 9999). */
  type Date = d: CalendarDate | 1000 <= d.year <= 9999 && IsCalendarDay(d.year, d.month, d.day)
    witness CalendarDate(2000, 1, 1)

  /** A naive `datetime`: wall-clock fields with no time zone attached. */
  datatype Moment = Moment(date: CalendarDate, hour: int, minute: int, second: int, microsecond: int)

  type DateTime = t: Moment | 1000 <= t.date.year <= 9999 && IsCalendarDay(t.date.year, t.date.month, t.date.day)
    && 0 <= t.hour < 24 && 0 <= t.minute < 60 && 0 <= t.second < 60 && 0 <= t.microsecond < 1000000
    witness Moment(CalendarDate(2000, 1, 1), 0, 0, 0, 0)

  /** `YYYY-MM-DD`: four digits, '-', two digits, '-', two digits. */
  predicate IsIsoDate(s: string)
  {
    && |s| == 10
    && IsDigits(s[0..4]) && s[4] == '-' && IsDigits(s[5..7]) && s[7] == '-' && IsDigits(s[8..10])
  }

  function ParseIsoDate(s: string): CalendarDate
    requires IsIsoDate(s)
  {
    CalendarDate(DigitsValue(s[0..4]), DigitsValue(s[5..7]), DigitsValue(s[8..10]))
  }

  lemma IsoDateParts(y: string, m: string, d: string)
    requires |y| == 4 && |m| == 2 && |d| == 2 && IsDigits(y) && IsDigits(m) && IsDigits(d)
    ensures var r := y + "-" + m + "-" + d;
      IsIsoDate(r) && r[0..4] == y && r[5..7] == m && r[8..10] == d
  {
    var r := y + "-" + m + "-" + d;
    assert r[0..4] == y && r[5..7] == m && r[8..10] == d;
  }

  /** `format_date`: `date.strftime("%Y-%m-%d")`. */
  function FormatDate(d: Date): (r: string)
    ensures IsIsoDate(r)
  {
    assert Pow10(4) == 10000 && Pow10(2) == 100;
    var y := PadNat(d.year, 4);
    var m := PadNat(d.month, 2);
    var dd := PadNat(d.day, 2);
    IsoDateParts(y, m, dd);
    y + "-" + m + "-" + dd
  }

  /** A date written by `FormatDate` reads back as the same year, month and day. */
  lemma FormatDateReadsBack(d: Date)
    ensures ParseIsoDate(FormatDate(d)) == d
  {
    assert Pow10(4) == 10000 && Pow10(2) == 100;
    IsoDateParts(PadNat(d.year, 4), PadNat(d.month, 2), PadNat(d.day, 2));
  }

  /** `date.strftime("%Y%m%d")`, as used in file names: the ISO date without its dashes. */
  function FormatDateCompact(d: Date): (r: string)
    ensures |r| == 8 && IsDigits(r)
    ensures r == FormatDate(d)[0..4] + FormatDate(d)[5..7] + FormatDate(d)[8..10]
  {
    assert Pow10(4) == 10000 && Pow10(2) == 100;
    var y := PadNat(d.year, 4);
    var m := PadNat(d.month, 2);
    var dd := PadNat(d.day, 2);
    IsoDateParts(y, m, dd);
    var r := y + m + dd;
    assert forall i | 0 <= i < 8 :: r[i] == if i < 4 then y[i] else if i < 6 then m[i - 4] else dd[i - 6];
    r
  }

  /**
   * The `date-time` production of section 5.6 of RFC 3339 with the `Z` offset:
   * full-date "T" HH ":" MM ":" SS [ "." 1*DIGIT ] "Z", with the value ranges of that section.
   */
  predicate IsRfc3339UtcDateTime(s: string)
  {
    && |s| >= 20
    && IsIsoDate(s[..10])
    && (var d := ParseIsoDate(s[..10]); IsCalendarDay(d.year, d.month, d.day))
    && s[10] == 'T'
    && IsDigits(s[11..13]) && s[13] == ':' && IsDigits(s[14..16]) && s[16] == ':' && IsDigits(s[17..19])
    && DigitsValue(s[11..13]) <= 23 && DigitsValue(s[14..16]) <= 59 && DigitsValue(s[17..19]) <= 60
    && (|s| == 20 || (|s| >= 22 && s[19] == '.' && IsDigits(s[20..|s| - 1])))
    && s[|s| - 1] == 'Z'
  }

  /** Microseconds denoted by a fraction of a second (digits after the '.'), truncated to six digits. */
  function FractionMicroseconds(f: string): nat
    requires IsDigits(f)
  {
    if |f| <= 6 then DigitsValue(f) * Pow10(6 - |f|) else DigitsValue(f[..6])
  }

  /** The wall-clock fields an RFC 3339 `Z` timestamp denotes. */
  function ParseRfc3339(s: string): Moment
    requires IsRfc3339UtcDateTime(s)
  {
    Moment(ParseIsoDate(s[..10]), DigitsValue(s[11..13]), DigitsValue(s[14..16]), DigitsValue(s[17..19]),
           if |s| == 20 then 0 else FractionMicroseconds(s[20..|s| - 1]))
  }

  lemma TimestampParts(date: string, hh: string, mm: string, ss: string, frac: string)
    requires IsIsoDate(date) && |hh| == 2 && |mm| == 2 && |ss| == 2
    requires IsDigits(hh) && IsDigits(mm) && IsDigits(ss)
    ensures var r := date + "T" + hh + ":" + mm + ":" + ss + frac + "Z";
      && |r| == 20 + |frac|
      && r[..10] == date && r[10] == 'T' && r[11..13] == hh && r[13] == ':' && r[14..16] == mm
      && r[16] == ':' && r[17..19] == ss && r[19..|r| - 1] == frac && r[|r| - 1] == 'Z'
  {
    var r := date + "T" + hh + ":" + mm + ":" + ss + frac + "Z";
    assert r[..10] == date;
    assert r[11..13] == hh && r[14..16] == mm && r[17..19] == ss;
    assert r[19..|r| - 1] == frac;
  }

  /**
   * `format_datetime_rfc3339`: `dt.isoformat() + "Z"`. On a naive datetime `isoformat()` prints
   * `YYYY-MM-DDTHH:MM:SS`, followed by `.ffffff` only when the microseconds are not zero; the
   * `Z` is appended as a literal, so the wall-clock fields are labelled UTC without conversion.
   */
  function FormatDateTimeRfc3339(t: DateTime): (r: string)
    ensures |r| == (if t.microsecond == 0 then 20 else 27)
    ensures r[..10] == FormatDate(t.date) && r[10] == 'T' && r[|r| - 1] == 'Z'
  {
    assert Pow10(6) == 1000000 && Pow10(2) == 100;
    var hh := PadNat(t.hour, 2);
    var mm := PadNat(t.minute, 2);
    var ss := PadNat(t.second, 2);
    TimestampParts(FormatDate(t.date), hh, mm, ss, MicrosecondPart(t.microsecond));
    FormatDate(t.date) + "T" + hh + ":" + mm + ":" + ss + MicrosecondPart(t.microsecond) + "Z"
  }

  /** `isoformat()`'s `.ffffff`, left out when the microseconds are zero. */
  function MicrosecondPart(microsecond: nat): (f: string)
    requires microsecond < 1000000
    ensures microsecond == 0 ==> f == ""
    ensures microsecond != 0 ==> |f| == 7 && f[0] == '.' && IsDigits(f[1..]) && DigitsValue(f[1..]) == microsecond
  {
    assert Pow10(6) == 1000000;
    if microsecond == 0 then "" else
      var f := "." + PadNat(microsecond, 6);
      assert f[1..] == PadNat(microsecond, 6);
      f
  }

  /**
   * A timestamp written by `FormatDateTimeRfc3339` is an RFC 3339 `date-time` in `Z` form whose
   * fields are the wall-clock fields it was given: nothing is converted to UTC.
   */
  lemma FormatDateTimeReadsBack(t: DateTime)
    ensures IsRfc3339UtcDateTime(FormatDateTimeRfc3339(t))
    ensures ParseRfc3339(FormatDateTimeRfc3339(t)) == t
  {
    assert Pow10(6) == 1000000 && Pow10(2) == 100;
    var r := FormatDateTimeRfc3339(t);
    var hh, mm, ss := PadNat(t.hour, 2), PadNat(t.minute, 2), PadNat(t.second, 2);
    var frac := MicrosecondPart(t.microsecond);
    TimestampParts(FormatDate(t.date), hh, mm, ss, frac);
    FormatDateReadsBack(t.date);
    if t.microsecond != 0 {
      assert r[20..|r| - 1] == frac[1..];
    }
  }

  // ---------------------------------------------------------------- bank-account sub-fields

  /**
   * The COMPE sub-field: `x.get('compe', default).zfill(3) if x.get('compe') else ''`.
   * The default is never used: an absent or empty code gives the empty token.
   */
  function FormatCompe(compe: Option<string>): (r: string)
    ensures r == "" <==> !Truthy(compe)
    ensures Truthy(compe) ==> |r| == Max(|compe.value|, COMPE_WIDTH) && (|compe.value| >= COMPE_WIDTH ==> r == compe.value)
  {
    if Truthy(compe) then ZFill(compe.value, COMPE_WIDTH) else ""
  }

  /** The ISPB sub-field: `x.get('ispb', default).zfill(8)`, always at least eight characters. */
  function FormatIspb(ispb: Option<string>, default: string): (r: string)
    ensures |r| == Max(|ispb.GetOr(default)|, ISPB_WIDTH)
    ensures ispb.None? ==> r == ZFill(default, ISPB_WIDTH)
    ensures IsDigits(ispb.GetOr(default)) ==> IsDigits(r) && DigitsValue(r) == DigitsValue(ispb.GetOr(default))
  {
    ZFill(ispb.GetOr(default), ISPB_WIDTH)
  }
}
