/**
 * The display helpers of src/utils/formatting.py (format_financial_value
 * is repeated word for word in src/utils/financial_utils.py): yen amounts
 * with a B/M/K tier, year/month labels and percentages, together with the
 * fixed-point rendering of Python's `:.Nf` they rely on and readers that
 * recover what was printed.
 */
module Formatting {
  import opened Wrappers
  import opened Dates

  function Abs(x: real): real {
    if x < 0.0 then -x else x
  }

  function Pow10(n: nat): (r: nat)
    ensures r >= 1
  {
    if n == 0 then 1 else 10 * Pow10(n - 1)
  }

  predicate IsDigit(c: char) {
    '0' <= c <= '9'
  }

  predicate AllDigits(s: string) {
    forall i :: 0 <= i < |s| ==> IsDigit(s[i])
  }

  function DigitValue(c: char): nat
    requires IsDigit(c)
  {
    c as int - '0' as int
  }

  function DigitChar(n: nat): (c: char)
    requires n < 10
    ensures IsDigit(c) && DigitValue(c) == n
  {
    ('0' as int + n) as char
  }

  /** The number a string of decimal digits denotes. */
  function DigitsValue(s: string): nat
    requires AllDigits(s)
  {
    if s == [] then 0 else DigitsValue(s[..|s| - 1]) * 10 + DigitValue(s[|s| - 1])
  }

  /** The decimal digits of n without leading zeros, "0" for zero: `str(n)`. */
  function NatDigits(n: nat): (s: string)
    ensures |s| >= 1 && AllDigits(s)
  {
    if n < 10 then [DigitChar(n)] else NatDigits(n / 10) + [DigitChar(n % 10)]
  }

  /** The w lowest decimal digits of n, zero-padded to width w. */
  function Padded(n: nat, w: nat): (s: string)
    ensures |s| == w && AllDigits(s)
  {
    if w == 0 then [] else Padded(n / 10, w - 1) + [DigitChar(n % 10)]
  }

  lemma {:induction false} NatDigitsValue(n: nat)
    ensures DigitsValue(NatDigits(n)) == n
  {
    if n >= 10 {
      var s := NatDigits(n);
      assert s[..|s| - 1] == NatDigits(n / 10);
      NatDigitsValue(n / 10);
    }
  }

  /** n with its w lowest decimal digits dropped: n / 10^w. */
  function Shifted(n: nat, w: nat): nat {
    if w == 0 then n else Shifted(n / 10, w - 1)
  }

  /** Appending n's last digit to a split of n / 10 gives a split of n. */
  lemma AppendDigit(n: nat, a: nat, b: nat, c: nat)
    requires a * b + c == n / 10 && c < b
    ensures a * (10 * b) + (c * 10 + n % 10) == n
    ensures c * 10 + n % 10 < 10 * b
  {
    assert a * (10 * b) == 10 * (a * b);
  }

  /** The digits Padded keeps and the ones Shifted keeps make up n. */
  lemma {:induction false} PaddedSplit(n: nat, w: nat)
    ensures Shifted(n, w) * Pow10(w) + DigitsValue(Padded(n, w)) == n
    ensures DigitsValue(Padded(n, w)) < Pow10(w)
  {
    if w > 0 {
      var s := Padded(n, w);
      assert s[..|s| - 1] == Padded(n / 10, w - 1);
      PaddedSplit(n / 10, w - 1);
      var a, b, c := Shifted(n / 10, w - 1), Pow10(w - 1), DigitsValue(Padded(n / 10, w - 1));
      assert Shifted(n, w) == a && Pow10(w) == 10 * b;
      assert DigitsValue(s) == c * 10 + n % 10;
      AppendDigit(n, a, b, c);
    }
  }

  /** Round half to even: the integer nearest y, and the even one when two are equally near. */
  function RoundHalfEven(y: real): (r: int)
    ensures -0.5 <= r as real - y <= 0.5
    ensures (r as real - y == 0.5 || y - r as real == 0.5) ==> r % 2 == 0
  {
    var f := y.Floor;
    var frac := y - f as real;
    if frac < 0.5 then f
    else if frac > 0.5 then f + 1
    else if f % 2 == 0 then f
    else f + 1
  }

  /** y * 10^p, one factor of ten at a time. */
  function ScaledUp(y: real, p: nat): (r: real)
    ensures y >= 0.0 ==> r >= 0.0
  {
    if p == 0 then y else ScaledUp(y, p - 1) * 10.0
  }

  lemma {:induction false} ScaledUpIs(y: real, p: nat)
    ensures ScaledUp(y, p) == y * Pow10(p) as real
  {
    if p > 0 {
      ScaledUpIs(y, p - 1);
      assert y * Pow10(p) as real == (y * Pow10(p - 1) as real) * 10.0;
    }
  }

  /** |x| rounded to p decimal places, counted in units of the last place. */
  function Units(x: real, p: nat): nat {
    var r := RoundHalfEven(ScaledUp(Abs(x), p));
    assert r as real >= -0.5;
    r
  }

  /**
   * A number as `:.Nf` prints it: a sign, and a count of units of the last
   * of `places` decimal places.
   */
  datatype Decimal = Decimal(negative: bool, units: nat, places: nat)

  /** The number a decimal denotes. */
  function Value(d: Decimal): real {
    var v := d.units as real / Pow10(d.places) as real;
    if d.negative then -v else v
  }

  /**
   * x rounded half to even at p places. The sign is x's own, so a small
   * negative x that rounds to zero still prints as "-0.0".
   */
  function Round(x: real, p: nat): Decimal {
    Decimal(x < 0.0, Units(x, p), p)
  }

  /** The digits of q units of the p-th decimal place, with a point when p > 0. */
  function UnsignedText(q: nat, p: nat): (s: string)
    ensures |s| > 0 && IsDigit(s[0]) && IsDigit(s[|s| - 1])
    ensures forall i :: 0 <= i < |s| ==> s[i] == '.' || IsDigit(s[i])
  {
    var whole := NatDigits(Shifted(q, p));
    if p == 0 then whole else whole + "." + Padded(q, p)
  }

  /** A minus sign for a negative decimal, then its digits. */
  function Text(d: Decimal): (s: string)
    ensures |s| > 0 && (s[0] == '-' <==> d.negative) && IsDigit(s[|s| - 1])
    ensures forall i :: 0 <= i < |s| ==> s[i] == '-' || s[i] == '.' || IsDigit(s[i])
  {
    var u := UnsignedText(d.units, d.places);
    if d.negative then "-" + u else u
  }

  /** `f"{x:.{p}f}"`: x rounded half to even at p places, printed. */
  function Fixed(x: real, p: nat): string {
    Text(Round(x, p))
  }

  /** Position of the first '.' of s, |s| when there is none. */
  function PointAt(s: string): (i: nat)
    ensures i <= |s| && (i < |s| ==> s[i] == '.')
    ensures forall j :: 0 <= j < i ==> s[j] != '.'
  {
    if s == [] || s[0] == '.' then 0 else 1 + PointAt(s[1..])
  }

  /**
   * Reads digits, optionally followed by a point and at least one digit:
   * the digits run together count units of the last place.
   */
  function ParseUnsigned(s: string): Option<(nat, nat)> {
    var i := PointAt(s);
    var whole := s[..i];
    var frac := if i < |s| then s[i + 1..] else "";
    if whole != [] && AllDigits(whole) && AllDigits(frac) && (i < |s| ==> frac != []) then
      Some((DigitsValue(whole + frac), |frac|))
    else None
  }

  /** Reads what Text writes: an optional minus sign, then ParseUnsigned. */
  function ParseDecimal(s: string): Option<Decimal> {
    var negative := s != [] && s[0] == '-';
    match ParseUnsigned(if negative then s[1..] else s)
    case Some((q, p)) => Some(Decimal(negative, q, p))
    case None => None
  }

  /** A point right after a run of digits is the first point. */
  lemma {:induction false} PointAfterDigits(w: string, rest: string)
    requires AllDigits(w) && rest != [] && rest[0] == '.'
    ensures PointAt(w + rest) == |w|
  {
    if w != [] {
      assert (w + rest)[1..] == w[1..] + rest;
      PointAfterDigits(w[1..], rest);
    }
  }

  /** Digits alone read back as that many units of no decimal place. */
  lemma ParsePlain(w: string)
    requires w != [] && AllDigits(w)
    ensures ParseUnsigned(w) == Some((DigitsValue(w), 0))
  {
    assert w[..|w|] == w && w + "" == w;
  }

  /** Digits, a point and more digits read back as the digits run together. */
  lemma ParsePointed(w: string, f: string)
    requires w != [] && AllDigits(w) && f != [] && AllDigits(f)
    ensures ParseUnsigned(w + "." + f) == Some((DigitsValue(w + f), |f|))
  {
    var s := w + "." + f;
    assert s == w + ("." + f);
    PointAfterDigits(w, "." + f);
    assert s[..|w|] == w && s[|w| + 1..] == f;
  }

  /** The integer digits and the p padded digits of q, run together, denote q. */
  lemma {:induction false} RunTogether(q: nat, p: nat)
    ensures DigitsValue(NatDigits(Shifted(q, p)) + Padded(q, p)) == q
  {
    if p == 0 {
      assert NatDigits(q) + Padded(q, 0) == NatDigits(q);
      NatDigitsValue(q);
    } else {
      var s := NatDigits(Shifted(q, p)) + Padded(q, p);
      assert s[..|s| - 1] == NatDigits(Shifted(q / 10, p - 1)) + Padded(q / 10, p - 1);
      RunTogether(q / 10, p - 1);
    }
  }

  /** The digits of q units of the p-th place read back as exactly q and p. */
  lemma {:induction false} UnsignedReadsBack(q: nat, p: nat)
    ensures ParseUnsigned(UnsignedText(q, p)) == Some((q, p))
  {
    var whole := NatDigits(Shifted(q, p));
    RunTogether(q, p);
    if p == 0 {
      NatDigitsValue(q);
      ParsePlain(whole);
    } else {
      var frac := Padded(q, p);
      assert UnsignedText(q, p) == whole + "." + frac;
      ParsePointed(whole, frac);
    }
  }

  /** Every decimal reads back from its text as itself, so Text is one-to-one. */
  lemma {:induction false} TextReadsBack(d: Decimal)
    ensures ParseDecimal(Text(d)) == Some(d)
  {
    UnsignedReadsBack(d.units, d.places);
    if d.negative {
      assert Text(d)[1..] == UnsignedText(d.units, d.places);
    }
  }

  /** A decimal of q units whose scaled distance to |x| is at most a half is that near x. */
  lemma NearValue(d: Decimal, x: real, q: nat, p: nat)
    requires d == Decimal(x < 0.0, q, p) && -0.5 <= q as real - Abs(x) * Pow10(p) as real <= 0.5
    ensures Abs(Value(d) - x) * Pow10(p) as real <= 0.5
  {
    var m := Pow10(p) as real;
    assert (q as real / m - Abs(x)) * m == q as real - Abs(x) * m;
  }

  /** The printed value is within half a unit of the last printed place of x. */
  lemma {:induction false} RoundIsNearest(x: real, p: nat)
    ensures Abs(Value(Round(x, p)) - x) * Pow10(p) as real <= 0.5
  {
    ScaledUpIs(Abs(x), p);
    NearValue(Round(x, p), x, Units(x, p), p);
  }

  /** The tiers of format_financial_value, largest first. */
  datatype Tier = Billion | Million | Thousand | Plain

  /** The tier of v: the largest whose threshold |v| reaches, thresholds included. */
  function TierOf(v: real): (t: Tier)
    ensures t == Billion <==> Abs(v) >= 1000000000.0
    ensures t == Million <==> 1000000.0 <= Abs(v) < 1000000000.0
    ensures t == Thousand <==> 1000.0 <= Abs(v) < 1000000.0
    ensures t == Plain <==> Abs(v) < 1000.0
  {
    if Abs(v) >= 1000000000.0 then Billion
    else if Abs(v) >= 1000000.0 then Million
    else if Abs(v) >= 1000.0 then Thousand
    else Plain
  }

  function Scale(t: Tier): (r: real)
    ensures r > 0.0
  {
    match t
    case Billion => 1000000000.0
    case Million => 1000000.0
    case Thousand => 1000.0
    case Plain => 1.0
  }

  function Suffix(t: Tier): string {
    match t
    case Billion => "B"
    case Million => "M"
    case Thousand => "K"
    case Plain => ""
  }

  /** One decimal for the scaled tiers, two for plain amounts. */
  function Places(t: Tier): nat {
    if t == Plain then 2 else 1
  }

  /**
   * format_financial_value: "¥", then v divided by its tier's scale and
   * printed with the tier's places, then the tier's suffix.
   */
  function FormatFinancialValue(v: real): (s: string)
    ensures |s| >= 2 && s[0] == '¥'
    ensures s[1] == '-' <==> v < 0.0
  {
    var t := TierOf(v);
    var x := v / Scale(t);
    assert x < 0.0 <==> v < 0.0;
    "¥" + Fixed(x, Places(t)) + Suffix(t)
  }

  /** The tier a printed amount's last character names. */
  function SuffixTier(c: char): Tier {
    if c == 'B' then Billion else if c == 'M' then Million else if c == 'K' then Thousand else Plain
  }

  /** Reads a printed amount back: its tier from the suffix, its decimal from the digits. */
  function ReadFinancialValue(s: string): Option<(Tier, Decimal)> {
    if |s| < 2 || s[0] != '¥' then None
    else
      var t := SuffixTier(s[|s| - 1]);
      var body := if t == Plain then s[1..] else s[1..|s| - 1];
      match ParseDecimal(body)
      case Some(d) => Some((t, d))
      case None => None
  }

  /** "¥", a decimal's text and a tier's suffix read back as that tier and decimal. */
  lemma {:induction false} TieredTextReadsBack(t: Tier, d: Decimal)
    ensures ReadFinancialValue("¥" + Text(d) + Suffix(t)) == Some((t, d))
  {
    var s := "¥" + Text(d) + Suffix(t);
    assert SuffixTier(s[|s| - 1]) == t;
    assert (if t == Plain then s[1..] else s[1..|s| - 1]) == Text(d);
    TextReadsBack(d);
  }

  /**
   * Every printed amount reads back as the tier of v and v divided by that
   * tier's scale, rounded to the tier's places.
   */
  lemma {:induction false} FinancialValueReadsBack(v: real)
    ensures var t := TierOf(v);
            ReadFinancialValue(FormatFinancialValue(v)) == Some((t, Round(v / Scale(t), Places(t))))
  {
    var t := TierOf(v);
    TieredTextReadsBack(t, Round(v / Scale(t), Places(t)));
  }

  lemma ScaleBack(y: real, v: real, m: real, unit: real)
    requires m > 0.0 && Abs(y - v / m) * unit <= 0.5
    ensures Abs(y * m - v) * unit <= 0.5 * m
  {
    assert y * m - v == (y - v / m) * m;
  }

  /**
   * The amount a printed value shows, scaled back up by its tier, is within
   * half a unit of the last printed place (in the tier's scale) of v.
   */
  lemma {:induction false} FinancialValueIsNear(v: real)
    ensures var t := TierOf(v);
            Abs(Value(Round(v / Scale(t), Places(t))) * Scale(t) - v) * Pow10(Places(t)) as real <= 0.5 * Scale(t)
  {
    var t := TierOf(v);
    RoundIsNearest(v / Scale(t), Places(t));
    ScaleBack(Value(Round(v / Scale(t), Places(t))), v, Scale(t), Pow10(Places(t)) as real);
  }

  /** format_percentage: the value with `places` decimals, then a single '%'. */
  function FormatPercentage(v: real, places: nat := 1): (s: string)
    ensures |s| >= 2 && s[|s| - 1] == '%' && '%' !in s[..|s| - 1]
  {
    Fixed(v, places) + "%"
  }

  /** A printed percentage reads back as v rounded half to even at `places` decimals. */
  lemma {:induction false} PercentageReadsBack(v: real, places: nat)
    ensures var s := FormatPercentage(v, places);
            ParseDecimal(s[..|s| - 1]) == Some(Round(v, places))
  {
    var s := FormatPercentage(v, places);
    assert s[..|s| - 1] == Text(Round(v, places));
    TextReadsBack(Round(v, places));
  }

  /** `strftime("%Y/%m")`: the year's digits, a slash and the two-digit month. */
  function FormatDate(d: Date): (s: string)
    requires ValidDate(d) && d.year >= 1
    ensures |s| == |NatDigits(d.year)| + 3 && s[|s| - 3] == '/'
    ensures AllDigits(s[..|s| - 3]) && AllDigits(s[|s| - 2..])
  {
    var s := NatDigits(d.year) + "/" + Padded(d.month, 2);
    assert s[..|s| - 3] == NatDigits(d.year) && s[|s| - 2..] == Padded(d.month, 2);
    s
  }

  /** The year and month a label names. */
  function ReadDate(s: string): Option<(int, int)> {
    if |s| >= 4 && s[|s| - 3] == '/' && AllDigits(s[..|s| - 3]) && AllDigits(s[|s| - 2..]) then
      Some((DigitsValue(s[..|s| - 3]), DigitsValue(s[|s| - 2..])))
    else None
  }

  /** A label reads back as its date's year and month. */
  lemma DateReadsBack(d: Date)
    requires ValidDate(d) && d.year >= 1
    ensures ReadDate(FormatDate(d)) == Some((d.year, d.month))
  {
    var s := FormatDate(d);
    assert s[..|s| - 3] == NatDigits(d.year) && s[|s| - 2..] == Padded(d.month, 2);
    NatDigitsValue(d.year);
    PaddedSplit(d.month, 2);
    assert Shifted(d.month, 2) == 0;
  }

  /** Two dates get the same label exactly when they fall in the same month of the same year. */
  lemma SameLabelSameMonth(d: Date, e: Date)
    requires ValidDate(d) && d.year >= 1 && ValidDate(e) && e.year >= 1
    ensures FormatDate(d) == FormatDate(e) <==> d.year == e.year && d.month == e.month
  {
    DateReadsBack(d);
    DateReadsBack(e);
  }

  /** format_dates: one label per date, in the same order. */
  function FormatDates(dates: seq<Date>): (r: seq<string>)
    requires forall i :: 0 <= i < |dates| ==> ValidDate(dates[i]) && dates[i].year >= 1
    ensures |r| == |dates|
    ensures forall i :: 0 <= i < |dates| ==> ReadDate(r[i]) == Some((dates[i].year, dates[i].month))
  {
    var r := seq(|dates|, i requires 0 <= i < |dates| => FormatDate(dates[i]));
    forall i | 0 <= i < |dates|
      ensures ReadDate(r[i]) == Some((dates[i].year, dates[i].month))
    {
      DateReadsBack(dates[i]);
    }
    r
  }
}
