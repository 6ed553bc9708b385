/** Amounts on the bank's wire: naira with two decimals, printed from kobo and parsed back in int64. */
module Naira {
  import opened Int64

  predicate IsDigit(c: char) { '0' <= c <= '9' }

  function DigitValue(c: char): nat
    requires IsDigit(c)
  {
    c as int - '0' as int
  }

  predicate AllDigits(s: string) { forall i :: 0 <= i < |s| ==> IsDigit(s[i]) }

  /** unicode.IsSpace. */
  predicate IsSpace(c: char) {
    var x := c as int;
    9 <= x <= 13 || x == 0x20 || x == 0x85 || x == 0xA0 || x == 0x1680 || 0x2000 <= x <= 0x200A
    || x == 0x2028 || x == 0x2029 || x == 0x202F || x == 0x205F || x == 0x3000
  }

  function TrimSpace(s: string): (t: string)
    ensures t != "" ==> !IsSpace(t[0]) && !IsSpace(t[|t| - 1])
    ensures s != "" && !IsSpace(s[0]) && !IsSpace(s[|s| - 1]) ==> t == s
    decreases |s|
  {
    if s == "" then s
    else if IsSpace(s[0]) then TrimSpace(s[1..])
    else if IsSpace(s[|s| - 1]) then TrimSpace(s[..|s| - 1])
    else s
  }

  /** strings.Cut: what stands before and after the first separator; without one, everything is before. */
  function Cut(s: string, sep: char): (parts: (string, string, bool))
    ensures sep !in parts.0
    ensures s == if parts.2 then parts.0 + [sep] + parts.1 else parts.0
    ensures parts.2 <==> sep in s
    ensures !parts.2 ==> parts.1 == ""
  {
    if s == "" then ("", "", false)
    else if s[0] == sep then ("", s[1..], true)
    else
      var (before, after, found) := Cut(s[1..], sep);
      ([s[0]] + before, after, found)
  }

  lemma {:induction false} CutAtFirst(a: string, b: string, sep: char)
    requires sep !in a
    ensures Cut(a + [sep] + b, sep) == (a, b, true)
  {
    if a != "" {
      assert (a + [sep] + b)[1..] == a[1..] + [sep] + b;
      CutAtFirst(a[1..], b, sep);
      assert [a[0]] + a[1..] == a;
    } else {
      assert a + [sep] + b == [sep] + b;
    }
  }

  // ---------------------------------------------------------------- decimal notation

  /** The number a string of digits denotes. */
  function Value(s: string): nat
    requires AllDigits(s)
  {
    if s == "" then 0 else 10 * Value(s[..|s| - 1]) + DigitValue(s[|s| - 1])
  }

  function Pow10(n: nat): (p: nat)
    ensures p >= 1
  {
    if n == 0 then 1 else 10 * Pow10(n - 1)
  }

  lemma {:induction false} ValueConcat(a: string, b: string)
    requires AllDigits(a) && AllDigits(b)
    ensures AllDigits(a + b) && Value(a + b) == Value(a) * Pow10(|b|) + Value(b)
    ensures Value(b) < Pow10(|b|)
    decreases |b|
  {
    if b == "" {
      assert a + b == a;
    } else {
      var front, last := b[..|b| - 1], b[|b| - 1];
      ValueConcat(a, front);
      assert (a + b)[..|a + b| - 1] == a + front && (a + b)[|a + b| - 1] == last;
      Reassociate(10, Value(a), Pow10(|front|));
    }
  }

  lemma Reassociate(x: nat, y: nat, z: nat)
    ensures x * (y * z) == y * (x * z)
  {
  }

  /** %d of a non-negative number. */
  function Decimal(n: nat): (s: string)
    ensures s != "" && AllDigits(s) && Value(s) == n
  {
    var last := ['0' + (n % 10) as char];
    if n < 10 then last else Decimal(n / 10) + last
  }

  // ---------------------------------------------------------------- the printer

  /** nairaAmount: "%d.%02d", a negative amount clamped to zero. */
  function NairaAmount(kobo: int64): string {
    var k: int := if kobo < 0 then 0 else kobo;
    Decimal(k / 100) + "." + Cents(k % 100)
  }

  /** %02d of a number below a hundred. */
  function Cents(n: nat): (s: string)
    requires n < 100
    ensures |s| == 2 && AllDigits(s)
  {
    ['0' + (n / 10) as char, '0' + (n % 10) as char]
  }

  // ---------------------------------------------------------------- the parser

  /** The first two decimals, padded. */
  function TwoDecimals(frac: string): (s: string)
    ensures |s| == 2
  {
    if |frac| == 0 then "00" else if |frac| == 1 then frac + "0" else frac[..2]
  }

  /** What koboFromNaira computes, in exact arithmetic: None is malformed. */
  function Parsed(s: string): (kobo: int)
    ensures kobo >= 0
  {
    var (whole, frac, _) := Cut(TrimSpace(s), '.');
    if AllDigits(whole) && AllDigits(TwoDecimals(frac)) then 100 * Value(whole) + Value(TwoDecimals(frac)) else 0
  }

  /** koboFromNaira: the digit loop in wrapping int64 arithmetic. */
  method KoboFromNaira(s: string) returns (kobo: int64)
    ensures kobo == Wrap(Parsed(s))
  {
    hide Wrap, Value, TrimSpace, Cut;
    var (whole, frac, _) := Cut(TrimSpace(s), '.');
    ghost var text := whole;
    ValueOfNothing();
    if whole == "" {
      whole := "0";
    }
    var naira: int64 := 0;
    for i := 0 to |whole|
      invariant AllDigits(whole[..i])
      invariant naira == Wrap(Value(whole[..i]))
    {
      var r := whole[i];
      if r < '0' || r > '9' {
        assert !AllDigits(text);
        return 0;
      }
      NextDigit(whole, i);
      naira := Wrap(Wrap(naira * 10) + DigitValue(r));
    }
    assert whole[..|whole|] == whole;
    WrapAbsorbs(Value(whole), 100, 0);
    kobo := Wrap(naira * 100);
    if |frac| == 0 {
      ValueOfZeros(frac);
      return;
    }
    ghost var decimals := TwoDecimals(frac);
    if |frac| == 1 {
      frac := frac + "0";
    } else if |frac| > 2 {
      frac := frac[..2];
    }
    assert frac == decimals;
    for i := 0 to |frac|
      invariant AllDigits(frac[..i])
    {
      if frac[i] < '0' || frac[i] > '9' {
        return 0;
      }
    }
    assert frac[..|frac|] == frac;
    ValueOfTwo(frac);
    WrapAbsorbs(100 * Value(whole), 1, Value(frac));
    kobo := Wrap(kobo + (DigitValue(frac[0]) * 10 + DigitValue(frac[1])));
  }

  lemma ValueOfNothing()
    ensures Value("") == 0 && Value("0") == 0
  {
    assert "0"[..0] == "";
  }

  lemma NextDigit(whole: string, i: nat)
    requires i < |whole| && AllDigits(whole[..i]) && IsDigit(whole[i])
    ensures AllDigits(whole[..i + 1])
    ensures Wrap(Value(whole[..i + 1])) == Wrap(Wrap(Wrap(Value(whole[..i])) * 10) + DigitValue(whole[i]))
  {
    assert whole[..i + 1][..i] == whole[..i];
    WrapAbsorbs(Value(whole[..i]), 10, 0);
    WrapAbsorbs(10 * Value(whole[..i]), 1, DigitValue(whole[i]));
  }

  lemma ValueOfTwo(two: string)
    requires |two| == 2 && AllDigits(two)
    ensures Value(two) == 10 * DigitValue(two[0]) + DigitValue(two[1])
  {
    assert two[..1][..0] == "" && Value(two[..1]) == DigitValue(two[0]);
  }

  // ---------------------------------------------------------------- what the pair promises

  lemma {:induction false} PrefixValue(s: string, i: nat)
    requires AllDigits(s) && i <= |s|
    ensures Value(s[..i]) <= Value(s)
    decreases |s|
  {
    if i == |s| {
      assert s[..i] == s;
    } else {
      assert s[..|s| - 1][..i] == s[..i];
      PrefixValue(s[..|s| - 1], i);
    }
  }

  lemma Printed(kobo: int64)
    requires kobo >= 0
    ensures var whole, cents := Decimal(kobo / 100), Cents(kobo % 100);
            && Cut(TrimSpace(NairaAmount(kobo)), '.') == (whole, cents, true)
            && Parsed(NairaAmount(kobo)) == 100 * Value(whole) + Value(cents) && Value(cents) == kobo % 100
  {
    hide TrimSpace, Cut, Value;
    var whole, cents := Decimal(kobo / 100), Cents(kobo % 100);
    var text := NairaAmount(kobo);
    assert text == whole + "." + cents;
    assert IsDigit(text[0]) && IsDigit(text[|text| - 1]);
    Halves(text, whole, cents);
    ValueOfTwo(cents);
    assert TwoDecimals(cents) == cents;
  }

  /** Printing then parsing gives back every non-negative int64, and nothing for a negative one. */
  lemma {:induction false} KoboRoundTrip(kobo: int64)
    ensures Wrap(Parsed(NairaAmount(kobo))) == if kobo < 0 then 0 else kobo
  {
    hide Wrap, Parsed, Value;
    Printed(if kobo < 0 then 0 else kobo);
  }

  /** ... and no partial sum of the digit loop, nor its hundredfold, leaves the int64 range on the way. */
  lemma {:induction false} RoundTripNeverWraps(kobo: int64, i: nat)
    requires kobo >= 0 && i <= |Cut(TrimSpace(NairaAmount(kobo)), '.').0|
    ensures var digits := Cut(TrimSpace(NairaAmount(kobo)), '.').0[..i];
            AllDigits(digits) && 100 * Value(digits) <= kobo
  {
    hide TrimSpace, Cut, Value, Parsed;
    Printed(kobo);
    PrefixValue(Decimal(kobo / 100), i);
  }

  lemma Halves(s: string, whole: string, frac: string)
    requires TrimSpace(s) == whole + "." + frac && AllDigits(whole) && AllDigits(frac)
    ensures Cut(TrimSpace(s), '.') == (whole, frac, true)
    ensures AllDigits(TwoDecimals(frac)) && Parsed(s) == 100 * Value(whole) + Value(TwoDecimals(frac))
  {
    hide Cut, TrimSpace, Value;
    CutAtFirst(whole, frac, '.');
  }

  /** kobo is a hundred times the decimal whole.frac, rounded down. */
  predicate IsFloorOfHundredfold(kobo: int, whole: string, frac: string)
    requires AllDigits(whole) && AllDigits(frac) && AllDigits(whole + frac)
  {
    kobo * Pow10(|frac|) <= 100 * Value(whole + frac) < (kobo + 1) * Pow10(|frac|)
  }

  lemma FloorIsUnique(n: int, p: int, j: int, k: int)
    requires p >= 1 && j * p <= n < (j + 1) * p && k * p <= n < (k + 1) * p
    ensures j == k
  {
    if j < k { AtMost(j + 1, k, p); }
    if k < j { AtMost(k + 1, j, p); }
  }

  lemma AtMost(x: int, y: int, p: int)
    requires x <= y && p >= 1
    ensures x * p <= y * p
  {
    assert y * p == x * p + (y - x) * p;
  }

  lemma FloorIsTwoDecimals(whole: string, frac: string)
    requires AllDigits(whole) && AllDigits(frac)
    ensures AllDigits(whole + frac) && AllDigits(TwoDecimals(frac))
    ensures IsFloorOfHundredfold(100 * Value(whole) + Value(TwoDecimals(frac)), whole, frac)
  {
    hide Value, Pow10;
    ValueConcat(whole, frac);
    SmallPowers();
    if |frac| == 0 {
      ValueOfZeros("");
      assert whole + frac == whole;
    } else if |frac| == 1 {
      ValueOfZeros(frac);
    } else {
      var two, rest := frac[..2], frac[2..];
      assert frac == two + rest;
      ValueConcat(two, rest);
      PowAfterTwo(|rest|);
      HundredfoldSplits(Value(whole), Value(two), Value(rest), Pow10(|rest|));
    }
  }

  lemma SmallPowers()
    ensures Pow10(0) == 1 && Pow10(1) == 10 && Pow10(2) == 100
  {
  }

  lemma PowAfterTwo(n: nat)
    ensures Pow10(n + 2) == 100 * Pow10(n)
  {
    assert Pow10(n + 2) == 10 * Pow10(n + 1);
  }

  lemma ValueOfZeros(frac: string)
    requires |frac| <= 1 && AllDigits(frac)
    ensures Value(TwoDecimals(frac)) == if frac == "" then 0 else 10 * Value(frac)
  {
    ValueOfTwo(TwoDecimals(frac));
    if frac != "" { assert frac[..0] == ""; }
  }

  lemma HundredfoldSplits(w: nat, t: nat, r: nat, p: nat)
    requires r < p
    ensures var n := w * (100 * p) + (t * p + r);
            (100 * w + t) * (100 * p) <= 100 * n < (100 * w + t + 1) * (100 * p)
  {
    var k := 100 * w + t;
    assert k * p == 100 * (w * p) + t * p;
    assert w * (100 * p) == 100 * (w * p);
    assert k * (100 * p) == 100 * (k * p) && (k + 1) * (100 * p) == 100 * (k * p) + 100 * p;
  }

  /** Parsing digits "." digits, with any white space around them: the exact sum is the floor of a hundred
      times the number, and the int64 result is that floor if and only if it fits. */
  lemma {:induction false} ParsesToFloorIffItFits(s: string, whole: string, frac: string)
    requires AllDigits(whole) && AllDigits(frac)
    requires TrimSpace(s) == whole + "." + frac
    ensures AllDigits(whole + frac) && IsFloorOfHundredfold(Parsed(s), whole, frac)
    ensures IsFloorOfHundredfold(Wrap(Parsed(s)), whole, frac) <==> Parsed(s) <= Int64.MAX
  {
    hide Value, Pow10, Wrap, Cut, TrimSpace, Parsed, TwoDecimals;
    Halves(s, whole, frac);
    FloorIsTwoDecimals(whole, frac);
    var n, p := 100 * Value(whole + frac), Pow10(|frac|);
    if IsFloorOfHundredfold(Wrap(Parsed(s)), whole, frac) { FloorIsUnique(n, p, Parsed(s), Wrap(Parsed(s))); }
  }

  lemma {:induction false} CutNowhere(s: string, sep: char)
    requires sep !in s
    ensures Cut(s, sep) == (s, "", false)
  {
    if s != "" {
      CutNowhere(s[1..], sep);
      assert [s[0]] + s[1..] == s;
    }
  }

  /** The i-th decimal, a missing one being zero. */
  function DecimalAt(frac: string, i: nat): nat
    requires i < |frac| ==> IsDigit(frac[i])
  {
    if i < |frac| then DigitValue(frac[i]) else 0
  }

  /** Every text, as what stands before its first dot and after it, if there is one: naira times a hundred plus
      the first two decimals when those are digits, and 0 for anything else. Digits alone are whole naira. */
  lemma {:induction false} ParsesEveryText(s: string, whole: string, frac: string, dotted: bool)
    requires '.' !in whole && (!dotted ==> frac == "")
    requires TrimSpace(s) == if dotted then whole + "." + frac else whole
    ensures if AllDigits(whole) && forall i :: 0 <= i < |frac| && i < 2 ==> IsDigit(frac[i])
            then Parsed(s) == 100 * Value(whole) + 10 * DecimalAt(frac, 0) + DecimalAt(frac, 1)
            else Parsed(s) == 0
    ensures Wrap(Parsed(s)) == Parsed(s) <==> Parsed(s) <= Int64.MAX
  {
    hide TrimSpace, Cut, Value;
    if dotted { CutAtFirst(whole, frac, '.'); } else { CutNowhere(whole, '.'); }
    var two := TwoDecimals(frac);
    if forall i :: 0 <= i < |frac| && i < 2 ==> IsDigit(frac[i]) {
      ValueOfTwo(two);
    } else if |frac| > 0 && !IsDigit(frac[0]) {
      assert two[0] == frac[0];
    } else {
      assert two[1] == frac[1];
    }
  }
}
