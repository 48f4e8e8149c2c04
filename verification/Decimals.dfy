/** Decimal numbers as the settings file spells them, printed and parsed. */
module Decimals {

  datatype Option<T> = None | Some(value: T)

  predicate IsDigit(c: char) { '0' <= c <= '9' }

  predicate AllDigits(s: string) { forall i :: 0 <= i < |s| ==> IsDigit(s[i]) }

  function DigitValue(c: char): (v: nat)
    requires IsDigit(c)
    ensures v < 10
  {
    c as int - '0' as int
  }

  function DigitChar(d: nat): (c: char)
    requires d < 10
    ensures IsDigit(c) && DigitValue(c) == d
  {
    (d + '0' as int) as char
  }

  /** The number a string of digits spells. */
  function Decimal(s: string): nat
    requires AllDigits(s)
  {
    if s == [] then 0 else 10 * Decimal(s[..|s| - 1]) + DigitValue(s[|s| - 1])
  }

  /** %u */
  function Digits(n: nat): (s: string)
    ensures s != [] && AllDigits(s)
  {
    if n < 10 then [DigitChar(n)] else Digits(n / 10) + [DigitChar(n % 10)]
  }

  lemma {:induction false} DigitsSpell(n: nat)
    ensures Decimal(Digits(n)) == n
  {
    if n < 10 {
      assert [DigitChar(n)][..0] == [];
    } else {
      DigitsSpell(n / 10);
      var s := Digits(n / 10) + [DigitChar(n % 10)];
      assert s[..|s| - 1] == Digits(n / 10);
    }
  }

  /** Below ten to the k, at most k digits. */
  lemma {:induction false} DigitsLength(n: nat, k: nat)
    requires k >= 1 && n < Power10(k)
    ensures |Digits(n)| <= k
  {
    if n >= 10 {
      assert k > 1;
      DigitsLength(n / 10, k - 1);
    }
  }

  function Power10(k: nat): nat { if k == 0 then 1 else 10 * Power10(k - 1) }

  /** A non-empty string of digits spelling at most max. */
  function Number(s: string, max: nat): Option<nat> {
    if s != [] && AllDigits(s) && Decimal(s) <= max then Some(Decimal(s)) else None
  }

  lemma {:induction false} DecimalGrows(s: string, i: nat)
    requires AllDigits(s) && i <= |s|
    ensures Decimal(s[..i]) <= Decimal(s)
    decreases |s|
  {
    if i == |s| {
      assert s[..i] == s;
    } else {
      var t := s[..|s| - 1];
      DecimalGrows(t, i);
      assert t[..i] == s[..i];
    }
  }

  /** zzcfg_parse_u12 and zzcfg_parse_u16: rejected before the accumulator can overflow */
  method ParseNumber(s: string, max: nat) returns (r: Option<nat>)
    ensures r == Number(s, max)
  {
    if s == [] {
      return None;
    }
    var value := 0;
    for i := 0 to |s|
      invariant AllDigits(s[..i]) && value == Decimal(s[..i]) && value <= max
    {
      if !IsDigit(s[i]) {
        return None;
      }
      assert s[..i + 1][..i] == s[..i];
      assert AllDigits(s[..i + 1]);
      value := value * 10 + DigitValue(s[i]);
      if value > max {
        if AllDigits(s) {
          DecimalGrows(s, i + 1);
        }
        return None;
      }
    }
    assert s[..|s|] == s;
    return Some(value);
  }

  lemma NumberReads(n: nat, max: nat)
    requires n <= max
    ensures Number(Digits(n), max) == Some(n)
  {
    DigitsSpell(n);
  }

  // ---- signed ----

  /** An optional minus sign and a magnitude of at most 65535, in range. */
  function Signed(s: string, min: int, max: int): Option<int> {
    var negative := s != [] && s[0] == '-';
    var m := Number(if negative then s[1..] else s, 65535);
    if m.None? then None
    else
      var v: int := if negative then 0 - m.value else m.value;
      if min <= v <= max then Some(v) else None
  }

  /** %d */
  function SignedDigits(v: int): string {
    if v < 0 then "-" + Digits(-v) else Digits(v)
  }

  /** zzcfg_parse_phase */
  method ParseSigned(s: string, min: int, max: int) returns (r: Option<int>)
    ensures r == Signed(s, min, max)
  {
    var negative := s != [] && s[0] == '-';
    var magnitude := ParseNumber(if negative then s[1..] else s, 65535);
    if magnitude.None? { return None; }
    var value: int := if negative then 0 - magnitude.value else magnitude.value;
    return if value < min || value > max then None else Some(value);
  }

  lemma SignedReads(v: int, min: int, max: int)
    requires min <= v <= max && -65535 <= v <= 65535
    ensures Signed(SignedDigits(v), min, max) == Some(v)
  {
    if v < 0 {
      NumberReads(-v, 65535);
      assert SignedDigits(v)[1..] == Digits(-v);
    } else {
      NumberReads(v, 65535);
    }
  }

  // ---- hundredths ----

  const GAMMA_MIN := 20
  const GAMMA_MAX := 500

  function FirstDot(s: string): (k: nat)
    ensures k <= |s| && '.' !in s[..k] && (k < |s| ==> s[k] == '.')
  {
    if s == [] || s[0] == '.' then 0 else 1 + FirstDot(s[1..])
  }

  /** "1.8", "1.80", "0.75", "2" or ".5": a whole part of at most 5 and one or two fraction digits. */
  function Hundredths(s: string): Option<nat> {
    var k := FirstDot(s);
    if s == [] || !AllDigits(s[..k]) || Decimal(s[..k]) > GAMMA_MAX / 100 then None
    else if k == |s| then InRange(100 * Decimal(s))
    else
      var f := s[k + 1..];
      if !AllDigits(f) || |f| == 0 || |f| > 2 then None
      else InRange(100 * Decimal(s[..k]) + if |f| == 1 then 10 * Decimal(f) else Decimal(f))
  }

  function InRange(v: nat): Option<nat> {
    if GAMMA_MIN <= v <= GAMMA_MAX then Some(v) else None
  }

  /** What the loop knows after the first i characters. */
  ghost predicate Scanned(s: string, i: nat, whole: nat, frac: nat, digits: nat, seenDot: bool) {
    && i <= |s|
    && var k := FirstDot(s);
    && (seenDot <==> k < i)
    && AllDigits(s[..if seenDot then k else i]) && whole == Decimal(s[..if seenDot then k else i]) <= GAMMA_MAX / 100
    && digits <= 2
    && (if seenDot then digits == i - k - 1 && AllDigits(s[k + 1..i]) && frac == Decimal(s[k + 1..i])
        else digits == 0 && frac == 0)
  }

  lemma DotFound(s: string, i: nat)
    requires i < |s|
    ensures s[i] == '.' && '.' !in s[..i] ==> FirstDot(s) == i
    ensures s[i] != '.' ==> FirstDot(s) != i
  {
    var k := FirstDot(s);
    if k < i {
      assert s[..i][k] == '.';
    }
    if i < k {
      assert s[..k][i] == s[i];
    }
  }

  lemma ScanDot(s: string, i: nat, whole: nat)
    requires i < |s| && s[i] == '.' && Scanned(s, i, whole, 0, 0, false)
    ensures Scanned(s, i + 1, whole, 0, 0, true)
  {
    DotFound(s, i);
    assert FirstDot(s) == i;
    assert s[i + 1..i + 1] == [];
  }

  lemma ScanWhole(s: string, i: nat, whole: nat)
    requires i < |s| && IsDigit(s[i]) && Scanned(s, i, whole, 0, 0, false)
    ensures whole * 10 + DigitValue(s[i]) <= GAMMA_MAX / 100 ==> Scanned(s, i + 1, whole * 10 + DigitValue(s[i]), 0, 0, false)
    ensures whole * 10 + DigitValue(s[i]) > GAMMA_MAX / 100 ==> Hundredths(s).None?
  {
    DotFound(s, i);
    assert s[..i + 1][..i] == s[..i];
    assert AllDigits(s[..i + 1]) && Decimal(s[..i + 1]) == whole * 10 + DigitValue(s[i]);
    if whole * 10 + DigitValue(s[i]) > GAMMA_MAX / 100 {
      WholeTooLarge(s, i + 1, FirstDot(s), whole * 10 + DigitValue(s[i]));
    }
  }

  lemma ScanFraction(s: string, i: nat, whole: nat, frac: nat, digits: nat)
    requires i < |s| && IsDigit(s[i]) && Scanned(s, i, whole, frac, digits, true)
    ensures digits < 2 ==> Scanned(s, i + 1, whole, frac * 10 + DigitValue(s[i]), digits + 1, true)
    ensures digits == 2 ==> Hundredths(s).None?
  {
    var k := FirstDot(s);
    if digits < 2 {
      assert s[k + 1..i + 1][..i - k - 1] == s[k + 1..i];
    }
  }

  lemma ScanRejects(s: string, i: nat, whole: nat, frac: nat, digits: nat, seenDot: bool)
    requires i < |s| && !IsDigit(s[i]) && (s[i] == '.' ==> seenDot) && Scanned(s, i, whole, frac, digits, seenDot)
    ensures Hundredths(s).None?
  {
    var k := FirstDot(s);
    DotFound(s, i);
    if seenDot {
      assert s[k + 1..][i - k - 1] == s[i];
    } else {
      assert s[..k][i] == s[i];
    }
  }

  /** zzgamma_parse_value */
  method ParseHundredths(s: string) returns (r: Option<nat>)
    ensures r == Hundredths(s)
  {
    if s == [] {
      return None;
    }
    var whole: nat, frac: nat, digits: nat, seenDot := 0, 0, 0, false;
    for i := 0 to |s|
      invariant Scanned(s, i, whole, frac, digits, seenDot)
    {
      if s[i] == '.' {
        if seenDot {
          ScanRejects(s, i, whole, frac, digits, seenDot);
          return None;
        }
        ScanDot(s, i, whole);
        seenDot := true;
      } else if IsDigit(s[i]) {
        if seenDot {
          ScanFraction(s, i, whole, frac, digits);
          digits := digits + 1;
          if digits > 2 {
            return None;
          }
          frac := frac * 10 + DigitValue(s[i]);
        } else {
          ScanWhole(s, i, whole);
          whole := whole * 10 + DigitValue(s[i]);
          if whole > GAMMA_MAX / 100 {
            return None;
          }
        }
      } else {
        ScanRejects(s, i, whole, frac, digits, seenDot);
        return None;
      }
    }
    ScanEnds(s, whole, frac, digits, seenDot);
    if seenDot && digits == 0 {
      return None;
    }
    if digits == 1 {
      frac := frac * 10;
    }
    var value := whole * 100 + frac;
    if value < GAMMA_MIN || value > GAMMA_MAX {
      return None;
    }
    return Some(value);
  }

  lemma ScanEnds(s: string, whole: nat, frac: nat, digits: nat, seenDot: bool)
    requires s != [] && Scanned(s, |s|, whole, frac, digits, seenDot)
    ensures Hundredths(s) == if seenDot && digits == 0 then None
                             else InRange(100 * whole + if digits == 1 then frac * 10 else frac)
  {
    assert s[..|s|] == s;
    var k := FirstDot(s);
    if seenDot {
      assert s[k + 1..|s|] == s[k + 1..];
    }
  }

  lemma WholeTooLarge(s: string, i: nat, k: nat, whole: nat)
    requires k == FirstDot(s) && i <= k && AllDigits(s[..i]) && whole == Decimal(s[..i]) > GAMMA_MAX / 100
    ensures Hundredths(s).None?
  {
    if AllDigits(s[..k]) {
      DecimalGrows(s[..k], i);
      assert s[..k][..i] == s[..i];
    }
  }

  /** %u.%02u */
  function HundredthsText(v: nat): string {
    Digits(v / 100) + "." + [DigitChar(v / 10 % 10), DigitChar(v % 10)]
  }

  lemma HundredthsReads(v: nat)
    requires GAMMA_MIN <= v <= GAMMA_MAX
    ensures Hundredths(HundredthsText(v)) == Some(v)
  {
    var whole, f := Digits(v / 100), [DigitChar(v / 10 % 10), DigitChar(v % 10)];
    DigitsSpell(v / 100);
    TwoDigits(v / 10 % 10, v % 10);
    DigitsOf(v);
    HundredthsParts(whole, f, v / 100, 10 * (v / 10 % 10) + v % 10);
  }

  lemma HundredthsParts(whole: string, f: string, w: nat, h: nat)
    requires AllDigits(whole) && whole != [] && AllDigits(f) && |f| == 2 && Decimal(whole) == w <= 5 && Decimal(f) == h
    ensures Hundredths(whole + "." + f) == InRange(100 * w + h)
  {
    DotBetween(whole, f);
  }

  lemma DigitsOf(v: nat)
    requires v <= GAMMA_MAX
    ensures v / 100 <= 5 && v == 100 * (v / 100) + (10 * (v / 10 % 10) + v % 10)
  {
  }

  lemma DotBetween(whole: string, f: string)
    requires AllDigits(whole)
    ensures var s := whole + "." + f; FirstDot(s) == |whole| && s[..|whole|] == whole && s[|whole| + 1..] == f
  {
    var s := whole + "." + f;
    assert s[..|whole|] == whole;
    DotFound(s, |whole|);
  }

  lemma TwoDigits(a: nat, b: nat)
    requires a < 10 && b < 10
    ensures Decimal([DigitChar(a), DigitChar(b)]) == 10 * a + b
  {
    var f := [DigitChar(a), DigitChar(b)];
    assert f[..1] == [f[0]] && f[..1][..0] == [];
    assert Decimal(f[..1]) == a;
  }
}
