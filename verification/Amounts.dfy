/** The SDK's token amounts as text: packages/sdk/src/schedule.ts. */
module Amounts {
  import opened Basics
  import opened Schedules

  predicate IsDigit(c: char) {
    '0' <= c <= '9'
  }

  predicate IsNumeral(s: string) {
    forall i :: 0 <= i < |s| ==> IsDigit(s[i])
  }

  /** White space as JavaScript regular expressions know it. */
  predicate IsSpace(c: char) {
    c in {' ', '\t', '\n', '\r', '\U{000b}', '\U{000c}', '\U{00a0}', '\U{1680}', '\U{2028}', '\U{2029}', '\U{202f}',
      '\U{205f}', '\U{3000}', '\U{feff}'}
    || '\U{2000}' <= c <= '\U{200a}'
  }

  function DigitValue(c: char): int
    requires IsDigit(c)
  {
    c as int - '0' as int
  }

  function Digit(n: int): (c: char)
    requires 0 <= n < 10
    ensures IsDigit(c) && DigitValue(c) == n
  {
    ('0' as int + n) as char
  }

  function Pow10(n: nat): (p: nat)
    ensures 0 < p
  {
    if n == 0 then 1 else 10 * Pow10(n - 1)
  }

  /** The number a digit string denotes; the empty string denotes 0. */
  function Value(s: string): (v: nat)
    requires IsNumeral(s)
    ensures v < Pow10(|s|)
  {
    if s == "" then 0
    else 10 * Value(s[..|s| - 1]) + DigitValue(s[|s| - 1])
  }

  /** The shortest decimal rendering of a number. */
  function Decimal(n: nat): (s: string)
    ensures s != "" && IsNumeral(s) && Value(s) == n
    ensures 1 < |s| ==> s[0] != '0'
    decreases n
  {
    if n < 10 then [Digit(n)]
    else
      var s := Decimal(n / 10);
      var r := s + [Digit(n % 10)];
      assert r[..|r| - 1] == s;
      r
  }

  function Zeros(n: nat): (s: string)
    ensures |s| == n && IsNumeral(s) && forall i :: 0 <= i < n ==> s[i] == '0'
  {
    seq(n, _ => '0')
  }

  function PadStart(s: string, width: nat): string {
    if |s| < width then Zeros(width - |s|) + s else s
  }

  function PadEnd(s: string, width: nat): string {
    if |s| < width then s + Zeros(width - |s|) else s
  }

  function StripTrailingZeros(s: string): (r: string)
    ensures |r| <= |s| && s == r + Zeros(|s| - |r|)
    ensures r != "" ==> r[|r| - 1] != '0'
    ensures IsNumeral(s) ==> IsNumeral(r)
  {
    if s != "" && s[|s| - 1] == '0' then
      var r := StripTrailingZeros(s[..|s| - 1]);
      assert s == s[..|s| - 1] + "0";
      r
    else s
  }

  function StripLeadingZeros(s: string): (r: string)
    requires IsNumeral(s) && s != ""
    ensures r != "" && IsNumeral(r) && (1 < |r| ==> r[0] != '0')
  {
    if 1 < |s| && s[0] == '0' then StripLeadingZeros(s[1..]) else s
  }

  /** Quotient and remainder of natural numbers. */
  function DivMod(n: nat, base: nat): (r: (nat, nat))
    requires 0 < base
    ensures n == r.0 * base + r.1 && r.1 < base
  {
    (n / base, n % base)
  }

  /** The printed fraction: filled up on the left, then without trailing zeros. */
  function Fraction(part: nat, decimals: nat): string {
    StripTrailingZeros(PadStart(Decimal(part), decimals))
  }

  function WithPoint(whole: string, frac: string): string {
    whole + (if frac == "" then "" else "." + frac)
  }

  function FormatAmount(amount: int, decimals: nat): string {
    var negative := amount < 0;
    var abs := if negative then -amount else amount;
    var (whole, part) := DivMod(abs, Pow10(decimals));
    (if negative then "-" else "") + WithPoint(Decimal(whole), Fraction(part, decimals))
  }

  /** The longest prefix of digits. */
  function LeadingDigits(s: string): (r: string)
    ensures IsNumeral(r) && |r| <= |s| && r == s[..|r|]
    ensures |r| < |s| ==> !IsDigit(s[|r|])
  {
    if s != "" && IsDigit(s[0]) then [s[0]] + LeadingDigits(s[1..]) else ""
  }

  function SkipSpaces(s: string): string {
    if s != "" && IsSpace(s[0]) then SkipSpaces(s[1..]) else s
  }

  /** The digits before and after the point, when the whole text is an amount. */
  function Match(text: string): (m: Option<(string, string)>)
    ensures m.Some? ==> m.value.0 != "" && IsNumeral(m.value.0) && IsNumeral(m.value.1)
  {
    var trimmed := SkipSpaces(text);
    var whole := LeadingDigits(trimmed);
    var rest := trimmed[|whole|..];
    var hasPoint := rest != "" && rest[0] == '.';
    var frac := if hasPoint then LeadingDigits(rest[1..]) else "";
    var tail := if hasPoint then rest[1 + |frac|..] else rest;
    if whole == "" || SkipSpaces(tail) != "" then None else Some((whole, frac))
  }

  /** `None` is the exception for text that is no amount or has too many decimal places. */
  function ParseAmount(text: string, decimals: nat): Option<nat> {
    match Match(text)
    case None => None
    case Some((whole, frac)) =>
      if decimals < |frac| then None
      else Some(Value(whole) * Pow10(decimals) + Value(PadEnd(frac, decimals)))
  }

  // ------------------------------------------------------------------ digit strings

  lemma {:induction false} ValueConcat(a: string, b: string)
    requires IsNumeral(a) && IsNumeral(b)
    ensures IsNumeral(a + b) && Value(a + b) == Value(a) * Pow10(|b|) + Value(b)
  {
    if b == "" {
      assert a + b == a;
    } else {
      var b1, last := b[..|b| - 1], b[|b| - 1];
      ValueConcat(a, b1);
      assert (a + b)[..|a + b| - 1] == a + b1;
      assert Value(b) == 10 * Value(b1) + DigitValue(last);
      TenTimes(Value(a), Pow10(|b1|));
    }
  }

  lemma TenTimes(a: int, p: int)
    ensures 10 * (a * p) == a * (10 * p)
  {
  }

  lemma {:induction false} ValueOfZeros(n: nat)
    ensures Value(Zeros(n)) == 0
  {
    if n > 0 {
      ValueOfZeros(n - 1);
      assert Zeros(n)[..n - 1] == Zeros(n - 1);
    }
  }

  /** Digit strings of the same length denote different numbers unless they are equal. */
  lemma {:induction false} ValueInjective(a: string, b: string)
    requires IsNumeral(a) && IsNumeral(b) && |a| == |b| && Value(a) == Value(b)
    ensures a == b
  {
    if a != "" {
      ValueInjective(a[..|a| - 1], b[..|b| - 1]);
      assert a == a[..|a| - 1] + [a[|a| - 1]] && b == b[..|b| - 1] + [b[|b| - 1]];
    }
  }

  lemma PadStartKeepsValue(s: string, width: nat)
    requires IsNumeral(s)
    ensures IsNumeral(PadStart(s, width)) && Value(PadStart(s, width)) == Value(s)
    ensures |PadStart(s, width)| == Max(|s|, width)
  {
    if |s| < width {
      ValueOfZeros(width - |s|);
      ValueConcat(Zeros(width - |s|), s);
    }
  }

  lemma {:induction false} DecimalLength(n: nat, width: nat)
    requires n < Pow10(width) && 0 < width
    ensures |Decimal(n)| <= width
    decreases n
  {
    if 10 <= n {
      assert 1 < width;
      DecimalLength(n / 10, width - 1);
    }
  }

  /** Rendering a digit string's number and padding it back gives the string. */
  lemma PaddedDecimalOfValue(s: string)
    requires IsNumeral(s) && s != ""
    ensures PadStart(Decimal(Value(s)), |s|) == s
  {
    DecimalLength(Value(s), |s|);
    PadStartKeepsValue(Decimal(Value(s)), |s|);
    ValueInjective(PadStart(Decimal(Value(s)), |s|), s);
  }

  /** Rendering a digit string's number drops its leading zeros. */
  lemma {:induction false} DecimalOfValue(s: string)
    requires IsNumeral(s) && s != ""
    ensures Decimal(Value(s)) == StripLeadingZeros(s)
  {
    hide Decimal, Pow10;
    if 1 < |s| && s[0] == '0' {
      LeadingZeroAddsNothing(s);
      DecimalOfValue(s[1..]);
    } else {
      PaddedDecimalOfValue(s);
      DecimalLength(Value(s), |s|);
      NoPadding(s, Decimal(Value(s)));
    }
  }

  lemma LeadingZeroAddsNothing(s: string)
    requires IsNumeral(s) && s != "" && s[0] == '0'
    ensures Value(s) == Value(s[1..])
  {
    hide Decimal, Pow10;
    assert s == "0" + s[1..];
    ValueConcat("0", s[1..]);
    assert Value("0") == 0 by { ValueOfZeros(1); assert Zeros(1) == "0"; }
  }

  /** A numeral without needless leading zero is nothing else filled up with zeros. */
  lemma NoPadding(s: string, d: string)
    requires s != "" && (1 < |s| ==> s[0] != '0')
    requires d != "" && |d| <= |s| && PadStart(d, |s|) == s
    ensures d == s
  {
    PaddingStartsWithZero(d, |s|);
    if |s| == 1 {
      assert |d| == |s|;
    }
  }

  lemma PaddingStartsWithZero(d: string, width: nat)
    ensures |d| < width ==> |PadStart(d, width)| == width && PadStart(d, width)[0] == '0'
  {
    if |d| < width {
      assert PadStart(d, width)[0] == Zeros(width - |d|)[0];
    }
  }

  lemma DivModOfSum(whole: nat, frac: nat, base: nat)
    requires frac < base
    ensures DivMod(whole * base + frac, base) == (whole, frac)
  {
    ModUnique(whole * base + frac, whole, frac, base);
  }

  // ------------------------------------------------------------------ matching what was printed

  lemma {:induction false} DigitsOf(s: string, rest: string)
    requires IsNumeral(s) && (rest == "" || !IsDigit(rest[0]))
    ensures LeadingDigits(s + rest) == s
  {
    if s == "" {
      assert s + rest == rest;
    } else {
      DigitsOf(s[1..], rest);
      assert (s + rest)[1..] == s[1..] + rest;
      assert s == [s[0]] + s[1..];
    }
  }

  predicate IsBlank(s: string) {
    forall i :: 0 <= i < |s| ==> IsSpace(s[i])
  }

  /** `/^\s*(\d+)(?:\.(\d*))?\s*$/` reads `text` with these groups; an absent second group counts as empty. */
  ghost predicate Reads(text: string, whole: string, frac: string) {
    && whole != "" && IsNumeral(whole) && IsNumeral(frac)
    && exists lead, point, trail :: Spells(text, lead, whole, point, frac, trail)
  }

  predicate Spells(text: string, lead: string, whole: string, point: bool, frac: string, trail: string) {
    && IsBlank(lead) && IsBlank(trail) && (point || frac == "")
    && text == lead + (whole + ((if point then "." + frac else "") + trail))
  }

  lemma {:induction false} SkipLead(lead: string, rest: string)
    requires IsBlank(lead)
    ensures SkipSpaces(lead + rest) == SkipSpaces(rest)
  {
    if lead == "" {
      assert lead + rest == rest;
    } else {
      assert (lead + rest)[1..] == lead[1..] + rest;
      SkipLead(lead[1..], rest);
    }
  }

  lemma {:induction false} SkippedIsBlank(s: string) returns (lead: string)
    ensures IsBlank(lead) && s == lead + SkipSpaces(s)
  {
    if s != "" && IsSpace(s[0]) {
      var more := SkippedIsBlank(s[1..]);
      lead := [s[0]] + more;
      assert s == [s[0]] + s[1..];
    } else {
      lead := "";
    }
  }

  /** The parser accepts exactly the texts the regular expression reads, with the same groups. */
  lemma MatchIsRegex(text: string, whole: string, frac: string)
    ensures Match(text) == Some((whole, frac)) <==> Reads(text, whole, frac)
  {
    hide Match, Spells;
    if Match(text) == Some((whole, frac)) {
      MatchReads(text);
    }
    if Reads(text, whole, frac) {
      var lead, point, trail :| Spells(text, lead, whole, point, frac, trail);
      ReadsMatch(text, lead, whole, point, frac, trail);
    }
  }

  lemma MatchReads(text: string)
    requires Match(text).Some?
    ensures Reads(text, Match(text).value.0, Match(text).value.1)
  {
    hide SkipSpaces, LeadingDigits, IsDigit, IsSpace;
    var (whole, frac) := Match(text).value;
    var trimmed := SkipSpaces(text);
    var lead := SkippedIsBlank(text);
    var rest := trimmed[|whole|..];
    var point := rest != "" && rest[0] == '.';
    var trail := if point then rest[1 + |frac|..] else rest;
    var blank := SkippedIsBlank(trail);
    assert blank + "" == blank == trail;
    assert rest == (if point then "." + frac else "") + trail by {
      if point {
        PointFirst(rest, frac);
      }
    }
    PrefixFirst(trimmed, whole);
    hide IsBlank;
    assert Spells(text, lead, whole, point, frac, trail);
  }

  lemma PrefixFirst(s: string, prefix: string)
    requires |prefix| <= |s| && prefix == s[..|prefix|]
    ensures s == prefix + s[|prefix|..]
  {
  }

  lemma PointFirst(rest: string, frac: string)
    requires rest != "" && rest[0] == '.' && |frac| <= |rest| - 1 && frac == rest[1..][..|frac|]
    ensures rest == "." + frac + rest[1 + |frac|..]
  {
  }

  lemma ReadsMatch(text: string, lead: string, whole: string, point: bool, frac: string, trail: string)
    requires whole != "" && IsNumeral(whole) && IsNumeral(frac)
    requires Spells(text, lead, whole, point, frac, trail)
    ensures Match(text) == Some((whole, frac))
  {
    hide SkipSpaces, LeadingDigits, IsDigit, IsSpace;
    var rest := (if point then "." + frac else "") + trail;
    var trimmed := whole + rest;
    assert IsDigit(trimmed[0]);
    SkipLead(lead, trimmed);
    NothingToSkip(trimmed);
    SkipLead(trail, "");
    NothingToSkip("");
    assert trail + "" == trail;
    SpacesAreNoDigits(trail);
    PointIsNoDigit();
    DigitsOf(whole, rest);
    assert trimmed[|whole|..] == rest;
    if point {
      assert rest[1..] == frac + trail;
      DigitsOf(frac, trail);
      assert rest[1 + |frac|..] == trail;
    } else {
      assert rest == trail;
    }
  }

  lemma SpacesAreNoDigits(s: string)
    requires IsBlank(s)
    ensures s != "" ==> !IsDigit(s[0]) && s[0] != '.'
  {
    if s != "" {
      assert IsSpace(s[0]);
    }
  }

  lemma PrintedMatches(whole: string, frac: string)
    requires whole != "" && IsNumeral(whole) && IsNumeral(frac)
    ensures Match(WithPoint(whole, frac)) == Some((whole, frac))
  {
    hide Match;
    var point := frac != "";
    assert Spells(WithPoint(whole, frac), "", whole, point, frac, "") by {
      assert WithPoint(whole, frac) == "" + (whole + ((if point then "." + frac else "") + ""));
    }
    ReadsMatch(WithPoint(whole, frac), "", whole, point, frac, "");
  }

  lemma NothingToSkip(text: string)
    requires text == "" || IsDigit(text[0]) || text[0] == '-'
    ensures SkipSpaces(text) == text
  {
  }

  lemma PointIsNoDigit()
    ensures !IsDigit('.') && !IsDigit('-')
  {
  }

  /** Parsing a printed amount gives the amount back, for any number of decimal places. */
  lemma FormatThenParse(amount: nat, decimals: nat)
    ensures ParseAmount(FormatAmount(amount, decimals), decimals) == Some(amount)
  {
    hide Pow10, DivMod, Decimal, Value, Match, Fraction, PadEnd, WithPoint;
    var (whole, part) := DivMod(amount, Pow10(decimals));
    var frac := Fraction(part, decimals);
    FractionFits(part, decimals);
    PrintedMatches(Decimal(whole), frac);
    assert "" + WithPoint(Decimal(whole), frac) == WithPoint(Decimal(whole), frac);
  }

  /** The printed fraction, filled up with zeros again, is the fraction. */
  lemma FractionFits(part: nat, decimals: nat)
    requires part < Pow10(decimals)
    ensures var frac := Fraction(part, decimals);
            && IsNumeral(frac) && |frac| <= decimals
            && IsNumeral(PadEnd(frac, decimals)) && Value(PadEnd(frac, decimals)) == part
  {
    hide Decimal, Value, StripTrailingZeros;
    PadStartKeepsValue(Decimal(part), decimals);
    if decimals == 0 {
      NoFraction();
    } else {
      DecimalLength(part, decimals);
      var padded := PadStart(Decimal(part), decimals);
      assert PadEnd(StripTrailingZeros(padded), decimals) == padded;
    }
  }

  lemma NoFraction()
    ensures Fraction(0, 0) == ""
  {
    assert PadStart(Decimal(0), 0) == "0";
    assert "0"[..0] == "";
  }

  /** Negative amounts print with a sign that the parser does not accept. */
  lemma NegativeIsRejected(amount: int, decimals: nat)
    requires amount < 0
    ensures ParseAmount(FormatAmount(amount, decimals), decimals) == None
  {
    hide SkipSpaces, Decimal, Fraction, WithPoint, DivMod;
    var text := FormatAmount(amount, decimals);
    assert text[0] == '-';
    NothingToSkip(text);
    PointIsNoDigit();
    assert LeadingDigits(text) == "";
  }

  /** No needless leading zero, no trailing zero after the point, no needless point. */
  function Canonical(whole: string, frac: string): string
    requires IsNumeral(whole) && whole != "" && IsNumeral(frac)
  {
    var shortest := StripTrailingZeros(frac);
    StripLeadingZeros(whole) + (if shortest == "" then "" else "." + shortest)
  }

  /** Printing a parsed text gives the canonical form of the digits it was written with. */
  lemma ParseThenFormat(text: string, decimals: nat)
    requires ParseAmount(text, decimals).Some?
    ensures Match(text).Some?
    ensures FormatAmount(ParseAmount(text, decimals).value, decimals)
         == Canonical(Match(text).value.0, Match(text).value.1)
  {
    hide Pow10, DivMod, Decimal, Value, Match, Fraction, PadEnd, StripTrailingZeros, StripLeadingZeros;
    var (whole, frac) := Match(text).value;
    var filled := PadEnd(frac, decimals);
    FilledIsNumeral(frac, decimals);
    DivModOfSum(Value(whole), Value(filled), Pow10(decimals));
    DecimalOfValue(whole);
    FractionOfFilled(frac, decimals);
    assert "" + WithPoint(Decimal(Value(whole)), Fraction(Value(filled), decimals))
        == WithPoint(Decimal(Value(whole)), Fraction(Value(filled), decimals));
  }

  lemma FilledIsNumeral(frac: string, decimals: nat)
    requires IsNumeral(frac) && |frac| <= decimals
    ensures IsNumeral(PadEnd(frac, decimals)) && |PadEnd(frac, decimals)| == decimals
  {
  }

  lemma FractionOfFilled(frac: string, decimals: nat)
    requires IsNumeral(frac) && |frac| <= decimals && IsNumeral(PadEnd(frac, decimals))
    ensures Fraction(Value(PadEnd(frac, decimals)), decimals) == StripTrailingZeros(frac)
  {
    hide Decimal, StripTrailingZeros, PadStart, Pow10;
    FilledIsNumeral(frac, decimals);
    SameStripped(frac, decimals);
    if decimals == 0 {
      NoFraction();
      assert PadEnd(frac, 0) == frac == "";
      assert StripTrailingZeros("") == "";
    } else {
      PaddedDecimalOfValue(PadEnd(frac, decimals));
    }
  }

  lemma SameStripped(frac: string, decimals: nat)
    requires IsNumeral(frac) && |frac| <= decimals
    ensures StripTrailingZeros(PadEnd(frac, decimals)) == StripTrailingZeros(frac)
    decreases decimals - |frac|
  {
    if |frac| < decimals {
      var more := frac + "0";
      SameStripped(more, decimals);
      OneMoreZero(frac, decimals);
      assert more[..|more| - 1] == frac;
    }
  }

  lemma OneMoreZero(frac: string, decimals: nat)
    requires |frac| < decimals
    ensures PadEnd(frac + "0", decimals) == PadEnd(frac, decimals)
  {
    assert Zeros(decimals - |frac|) == "0" + Zeros(decimals - |frac| - 1);
  }
}
