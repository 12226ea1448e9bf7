/** JavaScript's `Number(text)` restricted to plain decimal literals, and the
    `Number(...) || null` score rule of server/datasearch.js. */
module Numbers {
  import opened Wrappers

  /** The number mantissa / 10^scale, exactly (no floating-point rounding). */
  datatype Decimal = Decimal(mantissa: int, scale: nat)

  function Pow10(n: nat): (r: nat)
    ensures r >= 1
  {
    if n == 0 then 1 else 10 * Pow10(n - 1)
  }

  /** The real number a decimal stands for. */
  function Value(d: Decimal): real {
    d.mantissa as real / Pow10(d.scale) as real
  }

  predicate IsDigit(c: char) {
    '0' <= c <= '9'
  }

  predicate AllDigits(s: string) {
    forall i :: 0 <= i < |s| ==> IsDigit(s[i])
  }

  function DigitValue(c: char): nat
    requires IsDigit(c)
  {
    c as int - '0' as int
  }

  function DigitChar(n: nat): (c: char)
    requires n < 10
    ensures IsDigit(c) && DigitValue(c) == n
  {
    ('0' as int + n) as char
  }

  /** The value of a run of decimal digits, most significant first. */
  function DigitsValue(s: string): nat
    requires AllDigits(s)
  {
    if s == [] then 0 else DigitsValue(s[..|s| - 1]) * 10 + DigitValue(s[|s| - 1])
  }

  /** Length of the longest run of digits at the start of `s`. */
  function DigitRun(s: string): (n: nat)
    ensures n <= |s| && AllDigits(s[..n])
    ensures n < |s| ==> !IsDigit(s[n])
  {
    if s != [] && IsDigit(s[0]) then 1 + DigitRun(s[1..]) else 0
  }

  /** An unsigned literal: digits, optionally a period and more digits, with at
      least one digit in all ("5", "5.", ".5", "12.50"). */
  function ParseUnsigned(s: string): (r: Option<Decimal>)
    ensures r.Some? ==> r.value.mantissa >= 0
  {
    var n := DigitRun(s);
    var rest := s[n..];
    if rest == [] then
      if n > 0 then Some(Decimal(DigitsValue(s[..n]), 0)) else None
    else if rest[0] == '.' && AllDigits(rest[1..]) && (n > 0 || |rest| > 1) then
      Some(Decimal(DigitsValue(s[..n] + rest[1..]), |rest| - 1))
    else
      None
  }

  /** The effect of a leading minus sign on a parsed literal. */
  function Negated(r: Option<Decimal>): Option<Decimal> {
    match r
    case Some(d) => Some(Decimal(-d.mantissa, d.scale))
    case None => None
  }

  /** `Number(s)` on the decimal grammar, for text that holds no white space
      (the score text has had all of it removed, so `Number`'s own trimming
      has nothing to do): the empty string is 0, an optional sign precedes an
      unsigned literal, and anything else is NaN (None). */
  function ParseNumber(s: string): (r: Option<Decimal>)
    ensures s == [] ==> r == Some(Decimal(0, 0))
    ensures r.Some? && r.value.mantissa < 0 ==> s[0] == '-'
  {
    if s == [] then Some(Decimal(0, 0))
    else if s[0] == '-' then Negated(ParseUnsigned(s[1..]))
    else if s[0] == '+' then ParseUnsigned(s[1..])
    else ParseUnsigned(s)
  }

  /** The unsigned decimal literals: a non-empty run of digits, or two runs of
      digits around one period with at least one digit in all. */
  predicate IsUnsignedLiteral(s: string) {
    || (s != [] && AllDigits(s))
    || (|s| > 1 && exists k :: 0 <= k < |s| && s[k] == '.' && AllDigits(s[..k]) && AllDigits(s[k + 1..]))
  }

  /** A digit run ends where the first non-digit starts. */
  lemma {:induction false} DigitRunStops(w: string, x: string)
    requires AllDigits(w)
    requires x == [] || !IsDigit(x[0])
    ensures DigitRun(w + x) == |w|
    decreases |w|
  {
    if w == [] {
      assert w + x == x;
    } else {
      assert (w + x)[0] == w[0] && (w + x)[1..] == w[1..] + x;
      DigitRunStops(w[1..], x);
    }
  }

  /** A run of digits is read as a whole number. */
  lemma ParseWhole(w: string)
    requires w != [] && AllDigits(w)
    ensures ParseUnsigned(w) == Some(Decimal(DigitsValue(w), 0))
  {
    DigitRunStops(w, []);
    assert w + [] == w && w[..|w|] == w;
  }

  /** Digits, a period and digits are read as all the digits scaled by the
      number after the period ("5." is 5, ".5" is 5/10, "12.50" is 1250/100). */
  lemma ParsePointed(w: string, f: string)
    requires AllDigits(w) && AllDigits(f) && w + f != []
    ensures ParseUnsigned(w + ['.'] + f) == Some(Decimal(DigitsValue(w + f), |f|))
  {
    var s := w + ['.'] + f;
    assert s == w + (['.'] + f);
    DigitRunStops(w, ['.'] + f);
    assert s[..|w|] == w && s[|w|..] == ['.'] + f && s[|w|..][1..] == f;
  }

  /** Whatever the parser accepts is an unsigned literal. */
  lemma ParseUnsignedSound(s: string)
    requires ParseUnsigned(s).Some?
    ensures IsUnsignedLiteral(s)
  {
    var n := DigitRun(s);
    if n < |s| {
      assert s[n..][1..] == s[n + 1..];
      assert s[n] == '.' && AllDigits(s[..n]) && AllDigits(s[n + 1..]);
    } else {
      assert s[..n] == s;
    }
  }

  /** Every unsigned literal with a period is accepted. */
  lemma ParsePointedAccepted(s: string, k: nat)
    requires k < |s| && 1 < |s| && s[k] == '.' && AllDigits(s[..k]) && AllDigits(s[k + 1..])
    ensures ParseUnsigned(s).Some?
  {
    assert s == s[..k] + (['.'] + s[k + 1..]);
    ParsePointed(s[..k], s[k + 1..]);
    assert s[..k] + ['.'] + s[k + 1..] == s;
  }

  /** The parser accepts exactly the unsigned literals. */
  lemma ParseUnsignedAccepts(s: string)
    ensures ParseUnsigned(s).Some? <==> IsUnsignedLiteral(s)
  {
    if ParseUnsigned(s).Some? {
      ParseUnsignedSound(s);
    } else if s != [] && AllDigits(s) {
      ParseWhole(s);
    } else if IsUnsignedLiteral(s) {
      var k :| 0 <= k < |s| && s[k] == '.' && AllDigits(s[..k]) && AllDigits(s[k + 1..]);
      ParsePointedAccepted(s, k);
    }
  }

  /** `Number` accepts the empty text and an unsigned literal with or without
      a sign, and nothing else. */
  lemma ParseNumberAccepts(s: string)
    ensures ParseNumber(s).Some? <==>
      s == [] || IsUnsignedLiteral(s) || ((s[0] == '-' || s[0] == '+') && IsUnsignedLiteral(s[1..]))
  {
    if s != [] {
      ParseUnsignedAccepts(s);
      ParseUnsignedAccepts(s[1..]);
    }
  }

  /** An unsigned literal starts with a digit or the period, never a sign. */
  lemma UnsignedLiteralStart(x: string)
    requires IsUnsignedLiteral(x)
    ensures x != [] && (IsDigit(x[0]) || x[0] == '.')
  {
    if !AllDigits(x) {
      var k :| 0 <= k < |x| && x[k] == '.' && AllDigits(x[..k]) && AllDigits(x[k + 1..]);
      if k > 0 {
        assert x[..k][0] == x[0];
      }
    }
  }

  /** `Number` reads an unsigned literal with or without a `+` as the
      literal's value, and with a `-` as its negation. */
  lemma ParseNumberSigned(x: string)
    requires IsUnsignedLiteral(x)
    ensures ParseNumber(x) == ParseUnsigned(x)
    ensures ParseNumber(['+'] + x) == ParseUnsigned(x)
    ensures ParseNumber(['-'] + x) == Negated(ParseUnsigned(x))
    ensures ParseNumber(['-'] + x) == Negated(ParseNumber(x))
  {
    UnsignedLiteralStart(x);
    assert (['+'] + x)[1..] == x && (['-'] + x)[1..] == x;
  }

  /** A run of digits, with or without a `+`, is the whole number it spells
      ("007" is 7, "+5" is 5); after a `-` it is negated (`ParseNumberSigned`). */
  lemma ParseNumberWhole(w: string)
    requires w != [] && AllDigits(w)
    ensures ParseNumber(w) == Some(Decimal(DigitsValue(w), 0))
    ensures ParseNumber(['+'] + w) == Some(Decimal(DigitsValue(w), 0))
  {
    ParseWhole(w);
    ParseUnsignedSound(w);
    ParseNumberSigned(w);
  }

  /** Digits, a period and digits, with or without a `+`, are the exact
      decimal ("5." is 5, ".5" is 5/10, "+.5" is 5/10); after a `-` it is
      negated (`ParseNumberSigned`). */
  lemma ParseNumberPointed(w: string, f: string)
    requires AllDigits(w) && AllDigits(f) && w + f != []
    ensures ParseNumber(w + ['.'] + f) == Some(Decimal(DigitsValue(w + f), |f|))
    ensures ParseNumber(['+'] + (w + ['.'] + f)) == Some(Decimal(DigitsValue(w + f), |f|))
  {
    var x := w + ['.'] + f;
    ParsePointed(w, f);
    ParseUnsignedSound(x);
    ParseNumberSigned(x);
  }

  /** `Number(text) || null`: the score is null exactly when the text is not a
      number or is a zero (of either sign); otherwise it is the parsed number. */
  function Score(text: string): (r: Option<Decimal>)
    ensures r.Some? <==> ParseNumber(text).Some? && Value(ParseNumber(text).value) != 0.0
    ensures r.Some? ==> r == ParseNumber(text) && r.value.mantissa != 0
  {
    match ParseNumber(text)
    case Some(d) => if d.mantissa == 0 then None else Some(d)
    case None => None
  }

  // ---- A renderer, used as the parser's inverse ----

  /** The shortest decimal digits of `n` ("0" for zero). */
  function NatDigits(n: nat): (s: string)
    ensures |s| >= 1 && AllDigits(s) && DigitsValue(s) == n
  {
    if n < 10 then [DigitChar(n)]
    else
      var s := NatDigits(n / 10) + [DigitChar(n % 10)];
      assert s[..|s| - 1] == NatDigits(n / 10);
      s
  }

  function Zeros(k: nat): (s: string)
    ensures |s| == k && AllDigits(s)
  {
    if k == 0 then [] else Zeros(k - 1) + ['0']
  }

  /** Leading zeros do not change the value of a digit run. */
  lemma {:induction false} LeadingZero(s: string)
    requires AllDigits(s)
    ensures AllDigits(['0'] + s) && DigitsValue(['0'] + s) == DigitsValue(s)
    decreases |s|
  {
    if s != [] {
      var t := ['0'] + s;
      assert t[..|t| - 1] == ['0'] + s[..|s| - 1];
      LeadingZero(s[..|s| - 1]);
    }
  }

  lemma {:induction false} LeadingZeros(k: nat, s: string)
    requires AllDigits(s)
    ensures AllDigits(Zeros(k) + s) && DigitsValue(Zeros(k) + s) == DigitsValue(s)
  {
    if k == 0 {
      assert Zeros(k) + s == s;
    } else {
      assert Zeros(k) + s == Zeros(k - 1) + (['0'] + s);
      LeadingZero(s);
      LeadingZeros(k - 1, ['0'] + s);
    }
  }

  /** The digits of |m| padded with zeros to at least `scale + 1` digits. */
  function Padded(d: Decimal): (p: string)
    ensures |p| > d.scale && AllDigits(p)
    ensures DigitsValue(p) == if d.mantissa < 0 then -d.mantissa else d.mantissa
  {
    var m: nat := if d.mantissa < 0 then -d.mantissa else d.mantissa;
    var s := NatDigits(m);
    if |s| > d.scale then s
    else
      LeadingZeros(d.scale + 1 - |s|, s);
      Zeros(d.scale + 1 - |s|) + s
  }

  /** The digits of a decimal without its sign: the whole digits, then the
      period and `scale` fraction digits when `scale > 0`. */
  function UnsignedText(d: Decimal): (u: string)
    ensures u != [] && IsDigit(u[0])
  {
    var p := Padded(d);
    var cut := |p| - d.scale;
    p[..cut] + (if d.scale > 0 then "." + p[cut..] else "")
  }

  /** A decimal written out as text: a minus sign when negative, then its digits. */
  function Show(d: Decimal): string {
    (if d.mantissa < 0 then "-" else "") + UnsignedText(d)
  }

  /** The unsigned part of `Show(d)` parses back to |mantissa| and `scale`. */
  lemma ParseUnsignedShown(d: Decimal)
    ensures ParseUnsigned(UnsignedText(d))
      == Some(Decimal(if d.mantissa < 0 then -d.mantissa else d.mantissa, d.scale))
  {
    if d.scale > 0 {
      ParseFractionShown(d);
    } else {
      ParseWholeShown(d);
    }
  }

  lemma ParseFractionShown(d: Decimal)
    requires d.scale > 0
    ensures ParseUnsigned(UnsignedText(d))
      == Some(Decimal(if d.mantissa < 0 then -d.mantissa else d.mantissa, d.scale))
  {
    var p := Padded(d);
    var cut := |p| - d.scale;
    var w := p[..cut];
    var rest := "." + p[cut..];
    DigitRunStops(w, rest);
    assert (w + rest)[|w|..] == rest;
    assert (w + rest)[..|w|] == w;
    assert w + rest[1..] == p;
  }

  lemma ParseWholeShown(d: Decimal)
    requires d.scale == 0
    ensures ParseUnsigned(UnsignedText(d))
      == Some(Decimal(if d.mantissa < 0 then -d.mantissa else d.mantissa, d.scale))
  {
    var p := Padded(d);
    assert UnsignedText(d) == p[..|p|] == p;
    DigitRunStops(p, []);
    assert p + [] == p;
  }

  /** Parsing is the inverse of `Show`: `Number` reads back every decimal exactly. */
  lemma ParseShow(d: Decimal)
    ensures ParseNumber(Show(d)) == Some(d)
  {
    var u := UnsignedText(d);
    ParseUnsignedShown(d);
    if d.mantissa < 0 {
      assert Show(d)[0] == '-' && Show(d)[1..] == u;
    } else {
      assert Show(d) == u;
    }
  }

  /** The score of a written-out decimal is that decimal, except that zero
      (of any scale, signed or not) is null. */
  lemma ScoreShow(d: Decimal)
    ensures Score(Show(d)) == if d.mantissa == 0 then None else Some(d)
  {
    ParseShow(d);
  }
}
