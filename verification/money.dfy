// Decimal amounts and minor units: reading what users type, and the printer of
// the opening limit that the reader undoes.
module Money {
  import opened Prelude

  datatype Currency = USD | EUR | VND

  function FractionDigits(c: Currency): nat {
    match c
    case USD => 2
    case EUR => 2
    case VND => 0
  }

  const TWO_53 := 9007199254740992
  const MAX_SAFE_INTEGER := TWO_53 - 1

  // ----- Decimal digits ---------------------------------------------------------

  predicate IsDigit(c: char) { '0' <= c <= '9' }

  predicate AllDigits(s: string) { forall i :: 0 <= i < |s| ==> IsDigit(s[i]) }

  function DigitValue(c: char): nat
    requires IsDigit(c)
  {
    c as int - '0' as int
  }

  // The number a digit string stands for.
  function Value(s: string): nat
    requires AllDigits(s)
  {
    if |s| == 0 then 0 else Value(s[..|s| - 1]) * 10 + DigitValue(s[|s| - 1])
  }

  function Pow10(n: nat): nat {
    if n == 0 then 1 else 10 * Pow10(n - 1)
  }

  function Zeros(n: nat): (s: string)
    ensures |s| == n && AllDigits(s)
  {
    if n == 0 then "" else Zeros(n - 1) + "0"
  }

  lemma {:induction false} ValueConcat(a: string, b: string)
    requires AllDigits(a) && AllDigits(b)
    ensures AllDigits(a + b) && Value(a + b) == Value(a) * Pow10(|b|) + Value(b)
  {
    if |b| == 0 {
      assert a + b == a;
    } else {
      var b' := b[..|b| - 1];
      ValueConcat(a, b');
      assert (a + b)[..|a + b| - 1] == a + b';
      assert Value(a + b) == (Value(a) * Pow10(|b'|) + Value(b')) * 10 + DigitValue(b[|b| - 1]);
      Distribute(Value(a), Pow10(|b'|), Value(b'));
    }
  }

  lemma Distribute(a: nat, p: nat, b: nat)
    ensures (a * p + b) * 10 == a * (10 * p) + b * 10
  {
  }

  lemma {:induction false} ValueZeros(n: nat)
    ensures Value(Zeros(n)) == 0
  {
    if n > 0 {
      ValueZeros(n - 1);
      assert Zeros(n)[..n - 1] == Zeros(n - 1);
    }
  }

  // ----- Numbers as the browser holds them -----------------------------------------

  // Spacing of the doubles around n: 1 below 2^53, doubling with every power of two.
  function Ulp(n: nat): (u: nat)
    ensures u >= 1 && (n >= TWO_53 ==> u >= 2)
  {
    if n < TWO_53 then 1 else 2 * Ulp(n / 2)
  }

  // Number(digits): the double nearest to n, ties to even. (Beyond the largest
  // double the real result is Infinity; like these values, it is not safe.)
  function ToDouble(n: nat): nat {
    var u := Ulp(n);
    var q, r := n / u, n % u;
    if 2 * r < u || (2 * r == u && q % 2 == 0) then q * u else (q + 1) * u
  }

  predicate IsSafeInteger(n: nat) { n <= MAX_SAFE_INTEGER }

  // Rounding never brings a number into the safe range, and keeps the ones there.
  lemma ToDoubleSafe(n: nat)
    ensures n < TWO_53 ==> ToDouble(n) == n
    ensures n >= TWO_53 ==> ToDouble(n) >= TWO_53
  {
    if n >= TWO_53 {
      UlpSmall(n);
      DownTo(n, Ulp(n));
    }
  }

  lemma {:induction false} UlpSmall(n: nat)
    requires n >= TWO_53
    ensures n >= (TWO_53 / 2) * Ulp(n)
  {
    if n / 2 >= TWO_53 { UlpSmall(n / 2); }
  }

  lemma DownTo(n: nat, u: nat)
    requires n >= TWO_53 && u >= 2 && n >= (TWO_53 / 2) * u
    ensures n / u * u >= TWO_53
  {
    assert n / u >= TWO_53 / 2 by { QuotientAtLeast(n, u, TWO_53 / 2); }
    Scale(n / u, TWO_53 / 2, u);
  }

  lemma QuotientAtLeast(n: nat, u: nat, k: nat)
    requires u > 0 && n >= k * u
    ensures n / u >= k
  {
    var q := n / u;
    assert n < (q + 1) * u;
    if q < k { Scale(k, q + 1, u); }
  }

  lemma Scale(a: nat, b: nat, u: nat)
    requires a >= b
    ensures a * u >= b * u
  {
  }

  // ----- Reading ----------------------------------------------------------------------

  // White space and line ends that String.prototype.trim removes.
  predicate IsSpace(c: char) {
    || '\U{0009}' <= c <= '\U{000D}' || c == ' ' || c == '\U{00A0}' || c == '\U{1680}'
    || '\U{2000}' <= c <= '\U{200A}' || c == '\U{2028}' || c == '\U{2029}' || c == '\U{202F}'
    || c == '\U{205F}' || c == '\U{3000}' || c == '\U{FEFF}'
  }

  function Trim(s: string): string {
    if |s| > 0 && IsSpace(s[0]) then Trim(s[1..])
    else if |s| > 0 && IsSpace(s[|s| - 1]) then Trim(s[..|s| - 1])
    else s
  }

  function DigitRun(s: string, from: nat): (i: nat)
    requires from <= |s|
    ensures from <= i <= |s|
    ensures forall k :: from <= k < i ==> IsDigit(s[k])
    ensures i < |s| ==> !IsDigit(s[i])
    decreases |s| - from
  {
    if from == |s| || !IsDigit(s[from]) then from else DigitRun(s, from + 1)
  }

  // The strict decimal pattern: digits, and maybe a point and more digits.
  function MatchDecimal(s: string): (m: Option<(string, string)>)
    ensures m.Some? ==> AllDigits(m.value.0) && AllDigits(m.value.1)
  {
    var i := DigitRun(s, 0);
    if i == 0 then None
    else if i == |s| then Some((s, ""))
    else if s[i] == '.' && i + 1 < |s| && DigitRun(s, i + 1) == |s| then Some((s[..i], s[i + 1..]))
    else None
  }

  // Fraction padded to the currency's digits, joined to the whole part, and read
  // as one number.
  function JoinedNumber(whole: string, fraction: string, digits: nat): nat
    requires AllDigits(whole) && AllDigits(fraction) && |fraction| <= digits
  {
    Value(whole + (fraction + Zeros(digits - |fraction|)))
  }

  function ParseAmountToMinor(input: string, c: Currency): Option<nat> {
    match MatchDecimal(Trim(input))
    case None => None
    case Some(parts) =>
      if |parts.1| > FractionDigits(c) then None
      else
        var minor := ToDouble(JoinedNumber(parts.0, parts.1, FractionDigits(c)));
        if !IsSafeInteger(minor) || minor <= 0 then None else Some(minor)
  }

  // The minor units a numeral stands for.
  function MinorUnits(whole: string, fraction: string, digits: nat): nat
    requires AllDigits(whole) && AllDigits(fraction) && |fraction| <= digits
  {
    Value(whole) * Pow10(digits) + Value(fraction) * Pow10(digits - |fraction|)
  }

  // `s` is a decimal numeral for n minor units, with no more fraction digits than
  // the currency has.
  ghost predicate Denotes(s: string, c: Currency, n: nat) {
    exists whole: string, fraction: string ::
      && AllDigits(whole) && AllDigits(fraction) && |whole| > 0 && |fraction| <= FractionDigits(c)
      && s == Numeral(whole, fraction) && n == MinorUnits(whole, fraction, FractionDigits(c))
  }

  function Numeral(whole: string, fraction: string): string {
    if fraction == "" then whole else whole + "." + fraction
  }

  lemma MatchNumeral(whole: string, fraction: string)
    requires AllDigits(whole) && AllDigits(fraction) && |whole| > 0
    ensures MatchDecimal(Numeral(whole, fraction)) == Some((whole, fraction))
  {
    var s := Numeral(whole, fraction);
    var i := DigitRun(s, 0);
    if fraction == "" {
      assert s[..|s|] == s;
      assert i == |s|;
    } else {
      assert s[|whole|] == '.';
      assert !(i < |whole|) && !(|whole| < i);
      assert forall k :: i < k < |s| ==> s[k] == fraction[k - i - 1];
      assert DigitRun(s, i + 1) == |s|;
      assert s[..i] == whole && s[i + 1..] == fraction;
    }
  }

  lemma MatchMeans(s: string)
    requires MatchDecimal(s).Some?
    ensures var (whole, fraction) := MatchDecimal(s).value;
            |whole| > 0 && s == Numeral(whole, fraction)
  {
  }

  lemma JoinedIsMinorUnits(whole: string, fraction: string, digits: nat)
    requires AllDigits(whole) && AllDigits(fraction) && |fraction| <= digits
    ensures JoinedNumber(whole, fraction, digits) == MinorUnits(whole, fraction, digits)
  {
    var zeros := Zeros(digits - |fraction|);
    ValueConcat(fraction, zeros);
    ValueZeros(digits - |fraction|);
    ValueConcat(whole, fraction + zeros);
    hide Value, Pow10, Zeros;
    var tail := fraction + zeros;
    assert |tail| == digits;
    assert Value(tail) == Value(fraction) * Pow10(digits - |fraction|);
  }

  // The reader returns n exactly for the numerals of n minor units, for every n in
  // the safe range, with any surrounding space and any number of leading zeros.
  lemma ParseExactly(input: string, c: Currency, n: nat)
    ensures ParseAmountToMinor(input, c) == Some(n) <==>
            Denotes(Trim(input), c, n) && 1 <= n <= MAX_SAFE_INTEGER
  {
    hide JoinedNumber, MinorUnits, ToDouble, MatchDecimal, Trim, Numeral;
    var s := Trim(input);
    var digits := FractionDigits(c);
    if MatchDecimal(s).Some? {
      var (whole, fraction) := MatchDecimal(s).value;
      MatchMeans(s);
      if |fraction| <= digits {
        JoinedIsMinorUnits(whole, fraction, digits);
        ToDoubleSafe(JoinedNumber(whole, fraction, digits));
      }
    }
    if Denotes(s, c, n) {
      var whole: string, fraction: string :|
        && AllDigits(whole) && AllDigits(fraction) && |whole| > 0 && |fraction| <= digits
        && s == Numeral(whole, fraction) && n == MinorUnits(whole, fraction, digits);
      MatchNumeral(whole, fraction);
    }
  }

  // ----- Printing ------------------------------------------------------------------------

  function DigitChar(d: nat): (c: char)
    requires d < 10
    ensures IsDigit(c) && DigitValue(c) == d
  {
    ('0' as int + d) as char
  }

  // String(n) for a safe integer.
  function Decimal(n: nat): (s: string)
    ensures |s| > 0 && AllDigits(s) && Value(s) == n
  {
    if n < 10 then [DigitChar(n)]
    else
      var s := Decimal(n / 10) + [DigitChar(n % 10)];
      assert s[..|s| - 1] == Decimal(n / 10);
      s
  }

  function PadStart(s: string, width: nat): string {
    if |s| >= width then s else Zeros(width - |s|) + s
  }

  function OpeningLimitInputMax(limit: nat, c: Currency): string {
    var digits := FractionDigits(c);
    if digits == 0 then Decimal(limit)
    else
      var raw := PadStart(Decimal(limit), digits + 1);
      if |raw| < digits then raw else raw[..|raw| - digits] + "." + raw[|raw| - digits..]
  }

  lemma DigitsTrimmed(s: string)
    requires |s| > 0 && IsDigit(s[0]) && IsDigit(s[|s| - 1])
    ensures Trim(s) == s
  {
  }

  lemma NumeralTrimmed(whole: string, fraction: string)
    requires AllDigits(whole) && AllDigits(fraction) && |whole| > 0
    ensures Trim(Numeral(whole, fraction)) == Numeral(whole, fraction)
  {
    var s := Numeral(whole, fraction);
    assert s[|s| - 1] == if fraction == "" then whole[|whole| - 1] else fraction[|fraction| - 1];
    DigitsTrimmed(s);
  }

  lemma PaddedValue(n: nat, width: nat)
    ensures var raw := PadStart(Decimal(n), width);
            AllDigits(raw) && |raw| >= width && Value(raw) == n
  {
    hide Value, Pow10, Zeros, Decimal;
    var s := Decimal(n);
    if |s| < width {
      ValueConcat(Zeros(width - |s|), s);
      ValueZeros(width - |s|);
    }
  }

  // A digit string, and its reading with the point put in.
  lemma PointedNumeral(raw: string, digits: nat)
    requires AllDigits(raw) && |raw| > digits
    ensures MinorUnits(raw[..|raw| - digits], raw[|raw| - digits..], digits) == Value(raw)
  {
    var whole, fraction := raw[..|raw| - digits], raw[|raw| - digits..];
    assert raw == whole + fraction;
    ValueConcat(whole, fraction);
    ExactDigits(whole, fraction);
    hide Value, Pow10, MinorUnits;
  }

  // With all its fraction digits there, nothing is scaled up.
  lemma ExactDigits(whole: string, fraction: string)
    requires AllDigits(whole) && AllDigits(fraction)
    ensures MinorUnits(whole, fraction, |fraction|) == Value(whole) * Pow10(|fraction|) + Value(fraction)
  {
    assert Pow10(0) == 1;
    hide Value, Pow10;
  }

  lemma PrintedDenotes(limit: nat, c: Currency)
    ensures Trim(OpeningLimitInputMax(limit, c)) == OpeningLimitInputMax(limit, c)
    ensures Denotes(OpeningLimitInputMax(limit, c), c, limit)
  {
    hide Value, Pow10, MinorUnits, Decimal, Trim, PadStart;
    var digits := FractionDigits(c);
    var printed := OpeningLimitInputMax(limit, c);
    var raw := if digits == 0 then Decimal(limit) else PadStart(Decimal(limit), digits + 1);
    if digits > 0 { PaddedValue(limit, digits + 1); }
    PointedNumeral(raw, digits);
    var whole, fraction := raw[..|raw| - digits], raw[|raw| - digits..];
    assert printed == Numeral(whole, fraction);
    NumeralTrimmed(whole, fraction);
  }

  // Round trip: reading the printed opening limit gives the limit, for every
  // amount an account can be opened with.
  lemma PrintedLimitReadsBack(limit: nat, c: Currency)
    requires 1 <= limit <= MAX_SAFE_INTEGER
    ensures ParseAmountToMinor(OpeningLimitInputMax(limit, c), c) == Some(limit)
  {
    hide ParseAmountToMinor, OpeningLimitInputMax, Denotes, Trim;
    PrintedDenotes(limit, c);
    ParseExactly(OpeningLimitInputMax(limit, c), c, limit);
  }

  // Leading zeros change nothing.
  lemma LeadingZerosIgnored(zeros: nat, whole: string, fraction: string, c: Currency)
    requires AllDigits(whole) && AllDigits(fraction) && |whole| > 0
    ensures ParseAmountToMinor(Numeral(Zeros(zeros) + whole, fraction), c) == ParseAmountToMinor(Numeral(whole, fraction), c)
  {
    hide JoinedNumber, ToDouble, MatchDecimal, Trim, Numeral;
    NumeralTrimmed(Zeros(zeros) + whole, fraction);
    NumeralTrimmed(whole, fraction);
    MatchNumeral(Zeros(zeros) + whole, fraction);
    MatchNumeral(whole, fraction);
    if |fraction| <= FractionDigits(c) {
      ZerosInFront(zeros, whole, fraction, FractionDigits(c));
    }
  }

  lemma ZerosInFront(zeros: nat, whole: string, fraction: string, digits: nat)
    requires AllDigits(whole) && AllDigits(fraction) && |fraction| <= digits
    ensures JoinedNumber(Zeros(zeros) + whole, fraction, digits) == JoinedNumber(whole, fraction, digits)
  {
    ZeroPrefix(zeros, whole);
    hide Value, Pow10, Zeros, JoinedNumber;
    JoinedIsMinorUnits(Zeros(zeros) + whole, fraction, digits);
    JoinedIsMinorUnits(whole, fraction, digits);
  }

  lemma ZeroPrefix(zeros: nat, whole: string)
    requires AllDigits(whole)
    ensures Value(Zeros(zeros) + whole) == Value(whole)
  {
    hide Value, Pow10, Zeros;
    ValueConcat(Zeros(zeros), whole);
    ValueZeros(zeros);
    var p := Pow10(|whole|);
    assert 0 * p == 0;
  }

  // ----- What reading means in digits -----------------------------------------------------

  // Digits, and for dollars and euros a point and one or two more: 100 minor units to one
  // of these, 1 to one dong.
  ghost predicate Reads(s: string, c: Currency, n: nat) {
    exists whole: string, fraction: string ::
      && AllDigits(whole) && AllDigits(fraction) && |whole| > 0
      && s == (if fraction == "" then whole else whole + "." + fraction)
      && (if c == VND then fraction == "" && n == Value(whole)
          else |fraction| <= 2 && n == 100 * Value(whole) + (if |fraction| == 1 then 10 * Value(fraction) else Value(fraction)))
  }

  lemma UnitsMean(whole: string, fraction: string, c: Currency)
    requires AllDigits(whole) && AllDigits(fraction) && |fraction| <= FractionDigits(c)
    ensures MinorUnits(whole, fraction, FractionDigits(c)) ==
            if c == VND then Value(whole)
            else 100 * Value(whole) + (if |fraction| == 1 then 10 * Value(fraction) else Value(fraction))
    ensures FractionDigits(c) == if c == VND then 0 else 2
  {
    assert Pow10(0) == 1 && Pow10(1) == 10 && Pow10(2) == 100;
    assert |fraction| == 0 ==> Value(fraction) == 0;
    hide Pow10, Value;
  }

  lemma DenotesReads(s: string, c: Currency, n: nat)
    ensures Denotes(s, c, n) <==> Reads(s, c, n)
  {
    hide MinorUnits, Value;
    if Denotes(s, c, n) {
      var whole: string, fraction: string :|
        && AllDigits(whole) && AllDigits(fraction) && |whole| > 0 && |fraction| <= FractionDigits(c)
        && s == Numeral(whole, fraction) && n == MinorUnits(whole, fraction, FractionDigits(c));
      UnitsMean(whole, fraction, c);
    }
    if Reads(s, c, n) {
      var whole: string, fraction: string :|
        && AllDigits(whole) && AllDigits(fraction) && |whole| > 0
        && s == (if fraction == "" then whole else whole + "." + fraction)
        && (if c == VND then fraction == "" && n == Value(whole)
            else |fraction| <= 2 && n == 100 * Value(whole) + (if |fraction| == 1 then 10 * Value(fraction) else Value(fraction)));
      assert |fraction| <= FractionDigits(c);
      UnitsMean(whole, fraction, c);
      assert s == Numeral(whole, fraction);
    }
  }

  // What a user types is read as n minor units exactly when, less the space around it, it
  // is written so, and n is a positive safe integer.
  lemma ParseReads(input: string, c: Currency, n: nat)
    ensures ParseAmountToMinor(input, c) == Some(n) <==> Reads(Trim(input), c, n) && 1 <= n <= 9007199254740991
  {
    hide ParseAmountToMinor, Denotes, Reads, Trim;
    ParseExactly(input, c, n);
    DenotesReads(Trim(input), c, n);
  }

  // The space around a text, and only that, is taken away.
  lemma {:induction false} TrimMeans(s: string) returns (before: string, after: string)
    ensures s == before + Trim(s) + after
    ensures (forall i :: 0 <= i < |before| ==> IsSpace(before[i])) && (forall i :: 0 <= i < |after| ==> IsSpace(after[i]))
    ensures |Trim(s)| > 0 ==> !IsSpace(Trim(s)[0]) && !IsSpace(Trim(s)[|Trim(s)| - 1])
  {
    hide IsSpace;
    before, after := "", "";
    if |s| > 0 && IsSpace(s[0]) {
      var a, b := TrimMeans(s[1..]);
      before, after := [s[0]] + a, b;
    } else if |s| > 0 && IsSpace(s[|s| - 1]) {
      var a, b := TrimMeans(s[..|s| - 1]);
      before, after := a, b + [s[|s| - 1]];
    }
  }

  // The white space and line ends of ECMAScript.
  lemma SpacesAre(c: char)
    ensures IsSpace(c) <==>
            c in {'\t', '\n', '\U{000B}', '\U{000C}', '\r', ' ', '\U{00A0}', '\U{1680}', '\U{2000}', '\U{2001}',
                  '\U{2002}', '\U{2003}', '\U{2004}', '\U{2005}', '\U{2006}', '\U{2007}', '\U{2008}', '\U{2009}',
                  '\U{200A}', '\U{2028}', '\U{2029}', '\U{202F}', '\U{205F}', '\U{3000}', '\U{FEFF}'}
  {
  }

  // A number becomes the nearest one of its spacing, and of two the even one; the spacing
  // leaves 53 binary digits.
  lemma ToDoubleNearest(n: nat) returns (k: nat)
    ensures IsNearest(n, Ulp(n), k, ToDouble(n))
    ensures n < TWO_53 * Ulp(n) && (n >= TWO_53 ==> TWO_53 / 2 * Ulp(n) <= n)
  {
    UlpLarge(n);
    if n >= TWO_53 { UlpSmall(n); }
    k := Multiple(n);
    hide ToDouble, Ulp, Down, IsNearest, Multiple;
    IsMultiple(n);
    NearestParts(n, Ulp(n), n / Ulp(n), n % Ulp(n), k, ToDouble(n));
  }

  function Multiple(n: nat): nat {
    var u := Ulp(n);
    if Down(n / u, n % u, u) then n / u else n / u + 1
  }

  lemma IsMultiple(n: nat)
    ensures ToDouble(n) == Multiple(n) * Ulp(n)
    ensures Multiple(n) == if Down(n / Ulp(n), n % Ulp(n), Ulp(n)) then n / Ulp(n) else n / Ulp(n) + 1
  {
    hide Ulp;
  }

  // d is the k-th multiple of u, and no multiple of u is nearer to n; where two are as
  // near, k is even.
  ghost predicate IsNearest(n: nat, u: nat, k: nat, d: nat) {
    && d == k * u && 2 * (n - d) <= u && 2 * (d - n) <= u
    && (2 * (n - d) == u || 2 * (d - n) == u ==> k % 2 == 0)
  }

  lemma NearestParts(n: nat, u: nat, q: nat, r: nat, k: nat, d: nat)
    requires u > 0 && q == n / u && r == n % u && k == (if Down(q, r, u) then q else q + 1) && d == k * u
    ensures IsNearest(n, u, k, d)
  {
    QuotientOf(n, u, q, r);
    NextMultiple(q, u);
    Nearest(n, u, q, r, k, d);
  }

  // Nearer to the multiple below, or between two of which that is the even one.
  predicate Down(q: nat, r: nat, u: nat) {
    2 * r < u || (2 * r == u && q % 2 == 0)
  }

  lemma Nearest(n: nat, u: nat, q: nat, r: nat, k: nat, x: nat)
    requires r < u && r <= n
    requires k == (if Down(q, r, u) then q else q + 1) && x == (if Down(q, r, u) then n - r else n - r + u)
    ensures 2 * (n - x) <= u && 2 * (x - n) <= u
    ensures 2 * (n - x) == u || 2 * (x - n) == u ==> k % 2 == 0
  {
  }

  lemma QuotientOf(n: nat, u: nat, q: nat, r: nat)
    requires u > 0 && q == n / u && r == n % u
    ensures q * u == n - r && r < u
  {
  }

  lemma NextMultiple(q: nat, u: nat)
    ensures (q + 1) * u == q * u + u
  {
  }

  lemma {:induction false} UlpLarge(n: nat)
    ensures n < TWO_53 * Ulp(n)
  {
    if n >= TWO_53 { UlpLarge(n / 2); }
  }
}
