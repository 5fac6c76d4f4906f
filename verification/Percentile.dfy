/** Percentiles: the fractional percentile grammar, the exact rank, and the query they feed. */
module Percentile {
  import opened Sequences

  const WORD: nat := 0x1_0000_0000_0000_0000

  predicate IsDigit(c: char) {
    '0' <= c <= '9'
  }

  function DigitValue(c: char): (d: nat)
    requires IsDigit(c)
    ensures d <= 9
  {
    c as int - '0' as int
  }

  function Pow10(n: nat): (p: nat)
    ensures p >= 1
  {
    if n == 0 then 1 else 10 * Pow10(n - 1)
  }

  // ---- The reference: a decimal numeral and its value ----

  ghost predicate AllDigits(s: string) {
    forall i :: 0 <= i < |s| ==> IsDigit(s[i])
  }

  ghost function Numeral(s: string): nat
    requires AllDigits(s)
  {
    if s == [] then 0 else 10 * Numeral(s[..|s| - 1]) + DigitValue(s[|s| - 1])
  }

  const DIGITS := "0123456789"

  /** A number in decimal notation. */
  ghost function Decimal(n: nat): string {
    if n < 10 then [DIGITS[n]] else Decimal(n / 10) + [DIGITS[n % 10]]
  }

  lemma DigitIsDigit(d: nat)
    requires d < 10
    ensures IsDigit(DIGITS[d]) && DigitValue(DIGITS[d]) == d
  {
    assert DIGITS[0] == '0' && DIGITS[1] == '1' && DIGITS[2] == '2' && DIGITS[3] == '3' && DIGITS[4] == '4';
    assert DIGITS[5] == '5' && DIGITS[6] == '6' && DIGITS[7] == '7' && DIGITS[8] == '8' && DIGITS[9] == '9';
  }

  /** The numeral that a number is written as has that number as its value. */
  lemma {:induction false} NumeralOfDecimal(n: nat)
    ensures AllDigits(Decimal(n)) && Numeral(Decimal(n)) == n
  {
    DigitIsDigit(n % 10);
    if n < 10 {
      assert Decimal(n)[..0] == [];
    } else {
      NumeralOfDecimal(n / 10);
      NumeralAppend(Decimal(n / 10), DIGITS[n % 10]);
    }
  }

  /** A one and `n` zeros. */
  lemma {:induction false} PowerOfTen(n: nat)
    ensures Decimal(Pow10(n)) == ['1'] + seq(n, _ => '0')
  {
    if n > 0 {
      PowerOfTen(n - 1);
      assert Pow10(n) / 10 == Pow10(n - 1) && Pow10(n) % 10 == 0;
      assert seq(n, _ => '0') == seq(n - 1, _ => '0') + ['0'];
    }
  }

  /** The first dot from position `i` on, or the length of the text. */
  ghost function DotFrom(text: string, i: nat): (d: nat)
    requires i <= |text|
    ensures i <= d <= |text|
    ensures d < |text| ==> text[d] == '.'
    ensures forall j :: i <= j < d ==> text[j] != '.'
    decreases |text| - i
  {
    if i == |text| || text[i] == '.' then i else DotFrom(text, i + 1)
  }

  ghost function Dot(text: string): (d: nat)
    ensures d <= |text|
    ensures d < |text| ==> text[d] == '.'
    ensures forall j :: 0 <= j < d ==> text[j] != '.'
  {
    DotFrom(text, 0)
  }

  ghost function Whole(text: string): string {
    text[..Dot(text)]
  }

  ghost function Decimals(text: string): string {
    if Dot(text) == |text| then [] else text[Dot(text) + 1..]
  }

  /** Digits, optionally followed by a dot and one to nine digits. */
  ghost predicate Grammar(text: string) {
    && Whole(text) != [] && AllDigits(Whole(text)) && AllDigits(Decimals(text))
    && |Decimals(text)| <= 9
    && (Dot(text) < |text| ==> Decimals(text) != [])
  }

  /** The value of the numeral is `Num / Pow10(|Decimals|)` percent. */
  ghost function Num(text: string): nat
    requires Grammar(text)
  {
    Numeral(Whole(text) + Decimals(text))
  }

  ghost function Scale(text: string): nat {
    Pow10(|Decimals(text)|)
  }

  /** A percentile is a well-formed numeral in (0, 100]. */
  ghost predicate Acceptable(text: string) {
    Grammar(text) && 0 < Num(text) <= 100 * Scale(text)
  }

  /** Written as a whole number, the percentages from 1 to 100 are accepted, and only these. */
  lemma WholePercentages(n: nat)
    ensures Grammar(Decimal(n)) && Num(Decimal(n)) == n && Scale(Decimal(n)) == 1
    ensures Acceptable(Decimal(n)) <==> 1 <= n <= 100
  {
    NumeralOfDecimal(n);
    var text := Decimal(n);
    assert forall i :: 0 <= i < |text| ==> text[i] != '.';
    assert Dot(text) == |text|;
    assert Whole(text) == text && Decimals(text) == [] && text + [] == text;
  }

  // ---- The parser ----

  /** The digits among the first `i` characters. */
  ghost function Seen(text: string, i: nat): string
    requires i <= |text|
  {
    if i <= Dot(text) then text[..i] else text[..Dot(text)] + text[Dot(text) + 1..i]
  }

  ghost function SeenDecimals(text: string, i: nat): nat {
    if i <= Dot(text) then 0 else i - Dot(text) - 1
  }

  lemma SeenNext(text: string, i: nat)
    requires i < |text|
    ensures i != Dot(text) ==> Seen(text, i + 1) == Seen(text, i) + [text[i]]
    ensures i == Dot(text) ==> Seen(text, i + 1) == Seen(text, i)
    ensures SeenDecimals(text, i + 1) == SeenDecimals(text, i) + if i > Dot(text) then 1 else 0
  {
    var d := Dot(text);
    if i < d {
      SliceSnoc(text, 0, i);
    } else if i > d {
      SliceSnoc(text, d + 1, i);
      SnocAssociates(text[..d], text[d + 1..i], text[i]);
    }
  }

  lemma SeenAll(text: string)
    ensures Seen(text, |text|) == Whole(text) + Decimals(text)
    ensures SeenDecimals(text, |text|) == |Decimals(text)|
  {
  }

  lemma NumeralAppend(s: string, c: char)
    requires AllDigits(s) && IsDigit(c)
    ensures AllDigits(s + [c]) && Numeral(s + [c]) == 10 * Numeral(s) + DigitValue(c)
  {
    assert (s + [c])[..|s|] == s;
  }

  /** The digits seen so far already exceed one hundred. */
  ghost predicate Exceeds(text: string, i: nat)
    requires i <= |text|
  {
    AllDigits(Seen(text, i)) && Numeral(Seen(text, i)) > 100 * Pow10(SeenDecimals(text, i))
  }

  lemma ExceedsNext(text: string, i: nat)
    requires i < |text| && Grammar(text) && Exceeds(text, i)
    ensures Exceeds(text, i + 1)
  {
    if i == Dot(text) {
      SeenNext(text, i);
    } else {
      CharIsDigit(text, i);
      DigitSeen(text, i, i > Dot(text));
    }
  }

  /** More digits never bring a numeral back under one hundred. */
  lemma {:induction false} StaysTooBig(text: string, i: nat, j: nat)
    requires i <= j <= |text| && Grammar(text) && Exceeds(text, i)
    ensures Exceeds(text, j)
  {
    if i < j {
      StaysTooBig(text, i, j - 1);
      ExceedsNext(text, j - 1);
    }
  }

  lemma CharIsDigit(text: string, i: nat)
    requires Grammar(text) && i < |text| && i != Dot(text)
    ensures IsDigit(text[i])
  {
    if i < Dot(text) {
      assert Whole(text)[i] == text[i];
    } else {
      assert Decimals(text)[i - Dot(text) - 1] == text[i];
    }
  }

  lemma {:induction false} Pow10Monotone(a: nat, b: nat)
    requires a <= b
    ensures Pow10(a) <= Pow10(b)
  {
    if a < b { Pow10Monotone(a, b - 1); }
  }

  ghost predicate Parsed(text: string, i: nat, number: nat, scale: nat, decimals: nat, dot: bool)
    requires i <= |text|
  {
    && dot == (i > Dot(text)) && decimals == SeenDecimals(text, i) <= 9
    && AllDigits(Seen(text, i)) && number == Numeral(Seen(text, i))
    && scale == Pow10(decimals) && number <= 100 * scale
  }

  /** Accepts exactly the acceptable numerals, with numerator over denominator equal to the
      percentage over one hundred; the 64-bit accumulators never overflow. */
  method Parse(text: string) returns (ok: bool, numerator: nat, denominator: nat)
    ensures ok <==> Acceptable(text)
    ensures ok ==> numerator == Num(text) && denominator == 100 * Scale(text)
    ensures ok ==> 0 < numerator <= denominator < WORD
  {
    numerator, denominator := 0, 0;
    if |text| == 0 || !IsDigit(text[0]) || text[|text| - 1] == '.' {
      ok := false;
      RejectedEnds(text);
      return;
    }
    var number: nat, scale: nat, decimals: nat, dot := 0, 1, 0, false;
    for i := 0 to |text|
      invariant Parsed(text, i, number, scale, decimals, dot)
    {
      var c := text[i];
      if c == '.' && !dot {
        StepDot(text, i, number, scale, decimals);
        dot := true;
      } else {
        ghost var before := decimals;
        if dot { decimals := decimals + 1; }
        if !IsDigit(c) || decimals > 9 {
          ok := false;
          SeenNext(text, i);
          RejectedHere(text, i, dot);
          return;
        }
        StepFits(text, i, number, scale, before, dot);
        ghost var number0, scale0 := number, scale;
        if dot { scale := scale * 10; }
        number := number * 10 + DigitValue(c);
        assert number < WORD && scale < WORD;
        if number > 100 * scale {
          ok := false;
          StepTooBig(text, i, number0, scale0, before, dot);
          return;
        }
        StepDigit(text, i, number0, scale0, before, dot);
      }
    }
    SeenAll(text);
    WellFormed(text);
    ok := number != 0;
    if ok {
      numerator, denominator := number, 100 * scale;
      Pow10Monotone(decimals, 9);
      PowNine();
    }
  }

  lemma StepDot(text: string, i: nat, number: nat, scale: nat, decimals: nat)
    requires i < |text| && text[i] == '.' && Parsed(text, i, number, scale, decimals, false)
    ensures Parsed(text, i + 1, number, scale, decimals, true)
  {
    DotHere(text, i);
    SeenNext(text, i);
  }

  /** One more digit, if the numeral stays at or under one hundred. */
  lemma StepDigit(text: string, i: nat, number: nat, scale: nat, decimals: nat, dot: bool)
    requires i < |text| && IsDigit(text[i]) && Parsed(text, i, number, scale, decimals, dot)
    requires decimals + (if dot then 1 else 0) <= 9
    requires number * 10 + DigitValue(text[i]) <= 100 * if dot then scale * 10 else scale
    ensures Parsed(text, i + 1, number * 10 + DigitValue(text[i]), if dot then scale * 10 else scale,
                   if dot then decimals + 1 else decimals, dot)
  {
    DigitSeen(text, i, dot);
  }

  /** A numeral that has grown past one hundred is rejected for good. */
  lemma StepTooBig(text: string, i: nat, number: nat, scale: nat, decimals: nat, dot: bool)
    requires i < |text| && IsDigit(text[i]) && Parsed(text, i, number, scale, decimals, dot)
    requires number * 10 + DigitValue(text[i]) > 100 * if dot then scale * 10 else scale
    ensures !Acceptable(text)
  {
    DigitSeen(text, i, dot);
    assert Pow10(SeenDecimals(text, i + 1)) == if dot then scale * 10 else scale;
    TooBig(text, i + 1);
  }

  /** The accumulators stay within 64 bits at every step. */
  lemma StepFits(text: string, i: nat, number: nat, scale: nat, decimals: nat, dot: bool)
    requires i <= |text| && Parsed(text, i, number, scale, decimals, dot)
    ensures number * 10 + 9 < WORD && scale * 10 < WORD
  {
    Pow10Monotone(decimals, 9);
    PowNine();
  }

  lemma DigitSeen(text: string, i: nat, dot: bool)
    requires i < |text| && IsDigit(text[i]) && AllDigits(Seen(text, i)) && dot == (i > Dot(text))
    ensures i != Dot(text)
    ensures AllDigits(Seen(text, i + 1)) && Numeral(Seen(text, i + 1)) == 10 * Numeral(Seen(text, i)) + DigitValue(text[i])
    ensures SeenDecimals(text, i + 1) == SeenDecimals(text, i) + if dot then 1 else 0
  {
    SeenNext(text, i);
    NumeralAppend(Seen(text, i), text[i]);
  }

  lemma TooBig(text: string, i: nat)
    requires i <= |text|
    requires Exceeds(text, i)
    ensures !Acceptable(text)
  {
    if Grammar(text) {
      StaysTooBig(text, i, |text|);
      SeenAll(text);
    }
  }

  lemma PowNine()
    ensures Pow10(9) == 1000000000
  {
    assert Pow10(3) == 1000;
    assert Pow10(6) == 1000000;
  }

  lemma RejectedEnds(text: string)
    requires |text| == 0 || !IsDigit(text[0]) || text[|text| - 1] == '.'
    ensures !Grammar(text)
  {
    if Grammar(text) { GrammarEnds(text); }
  }

  lemma GrammarEnds(text: string)
    requires Grammar(text)
    ensures |text| > 0 && IsDigit(text[0]) && text[|text| - 1] != '.'
  {
    assert Whole(text)[0] == text[0];
    if Dot(text) < |text| - 1 { CharIsDigit(text, |text| - 1); }
  }

  lemma GrammarHere(text: string, i: nat)
    requires Grammar(text) && i < |text|
    ensures SeenDecimals(text, i + 1) <= 9 && (i != Dot(text) ==> IsDigit(text[i]))
  {
    if i != Dot(text) { CharIsDigit(text, i); }
  }

  lemma DotHere(text: string, i: nat)
    requires i < |text| && text[i] == '.' && i <= Dot(text)
    ensures i == Dot(text)
  {
  }

  lemma RejectedHere(text: string, i: nat, dot: bool)
    requires i < |text| && dot == (i > Dot(text)) && (text[i] == '.' ==> dot)
    requires !IsDigit(text[i]) || SeenDecimals(text, i + 1) > 9
    ensures !Grammar(text)
  {
    if Grammar(text) { GrammarHere(text, i); }
  }

  lemma WellFormed(text: string)
    requires |text| > 0 && IsDigit(text[0]) && text[|text| - 1] != '.'
    requires AllDigits(Seen(text, |text|)) && SeenDecimals(text, |text|) <= 9
    ensures Grammar(text)
  {
    SeenAll(text);
    var s := Whole(text) + Decimals(text);
    forall i | 0 <= i < |Whole(text)|
      ensures IsDigit(Whole(text)[i])
    {
      assert s[i] == Whole(text)[i];
    }
    forall i | 0 <= i < |Decimals(text)|
      ensures IsDigit(Decimals(text)[i])
    {
      assert s[|Whole(text)| + i] == Decimals(text)[i];
    }
  }

  // ---- The rank ----

  /** Exact rounding up, with no floating point in between. */
  function Rank(count: nat, numerator: nat, denominator: nat): nat
    requires denominator > 0
  {
    if count == 0 then 0 else (count * numerator + denominator - 1) / denominator
  }

  /** The rank is the least number of samples that is at least the requested share, and names
      a sample. */
  lemma RankIsLeast(count: nat, numerator: nat, denominator: nat)
    requires 0 < numerator <= denominator && count > 0
    ensures var r := Rank(count, numerator, denominator);
            && 1 <= r <= count
            && r * denominator >= count * numerator
            && forall r': nat :: r' * denominator >= count * numerator ==> r <= r'
  {
    var p := count * numerator;
    var r := (p + denominator - 1) / denominator;
    assert p >= 1 by { MulAtLeast(count, numerator); }
    CeilDiv(p, denominator);
    forall r': nat | r' * denominator >= p
      ensures r <= r'
    {
      if r' < r { MulUp(r', r - 1, denominator); }
    }
    MulUp'(count, numerator, denominator);
  }

  lemma MulAtLeast(a: nat, b: nat)
    requires a > 0 && b > 0
    ensures a * b >= 1
  {
  }

  lemma CeilDiv(p: nat, d: nat)
    requires d > 0 && p > 0
    ensures var r := (p + d - 1) / d;
            r >= 1 && r * d >= p && (r - 1) * d < p
  {
    var r := (p + d - 1) / d;
    assert p + d - 1 == r * d + (p + d - 1) % d;
    assert (r - 1) * d == r * d - d;
  }

  lemma {:induction false} MulUp(a: nat, b: nat, c: nat)
    requires a <= b
    ensures a * c <= b * c
  {
    if a < b {
      MulUp(a, b - 1, c);
      assert b * c == (b - 1) * c + c;
    }
  }

  lemma {:induction false} MulUp'(c: nat, a: nat, b: nat)
    requires a <= b
    ensures c * a <= c * b
  {
    if c > 0 {
      MulUp'(c - 1, a, b);
      assert c * a == (c - 1) * a + a && c * b == (c - 1) * b + b;
    }
  }

  /** A higher percentile never has a lower rank. */
  lemma RankMonotone(count: nat, n: nat, d: nat, n': nat, d': nat)
    requires 0 < n <= d && 0 < n' <= d' && count > 0 && n * d' <= n' * d
    ensures Rank(count, n, d) <= Rank(count, n', d')
  {
    RankIsLeast(count, n, d);
    RankIsLeast(count, n', d');
    var r' := Rank(count, n', d');
    // r' d' >= count n'  and  n d' <= n' d  give  r' d >= count n
    if r' * d < count * n {
      calc {
        (r' * d) * d' + d';
      <= { MulUp(r' * d + 1, count * n, d'); assert (r' * d + 1) * d' == (r' * d) * d' + d'; }
        (count * n) * d';
      == { Assoc(count, n, d'); }
        count * (n * d');
      <= { MulUp'(count, n * d', n' * d); }
        count * (n' * d);
      == { Assoc(count, n', d); }
        (count * n') * d;
      <= { MulUp(count * n', r' * d', d); }
        (r' * d') * d;
      == { Swap(r', d', d); }
        (r' * d) * d';
      }
    }
  }

  lemma Assoc(a: nat, b: nat, c: nat)
    ensures (a * b) * c == a * (b * c)
  {
  }

  lemma Swap(a: nat, b: nat, c: nat)
    ensures (a * b) * c == (a * c) * b
  {
  }
}
