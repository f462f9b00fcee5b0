/** Exact decimal amounts: strings in, integers out, and nothing in between that could round. */
module Money {

  import opened Common
  import opened Numerals

  // ---------------------------------------------------------------- text and numbers

  predicate IsDigit(ch: char) {
    '0' <= ch <= '9'
  }

  predicate AllDigits(s: string) {
    forall k :: 0 <= k < |s| ==> IsDigit(s[k])
  }

  function Nums(s: string): (ds: seq<int>)
    requires AllDigits(s)
    ensures |ds| == |s| && DigitsBelow(10, ds)
  {
    seq(|s|, k requires 0 <= k < |s| => s[k] as int - '0' as int)
  }

  function Text(ds: seq<int>): (s: string)
    requires DigitsBelow(10, ds)
    ensures |s| == |ds| && AllDigits(s)
  {
    seq(|ds|, k requires 0 <= k < |ds| => ('0' as int + ds[k]) as char)
  }

  lemma NumsText(ds: seq<int>)
    requires DigitsBelow(10, ds)
    ensures Nums(Text(ds)) == ds
  {
  }

  /** `int()` on a string of ASCII digits. */
  function IntOf(s: string): (n: nat)
    requires AllDigits(s)
  {
    ValueNonNegative(10, Nums(s));
    Value(10, Nums(s))
  }

  /** `str()` of a natural number. */
  function Str(n: nat): (s: string)
    ensures AllDigits(s) && s != []
  {
    if n == 0 then "0" else Text(Digits(10, n))
  }

  function Noughts(k: nat): (s: string)
    ensures |s| == k && AllDigits(s)
    ensures forall i :: 0 <= i < k ==> s[i] == '0'
  {
    seq(k, _ => '0')
  }

  function Ljust(s: string, d: nat): string {
    if |s| >= d then s else s + Noughts(d - |s|)
  }

  function Rjust(s: string, d: nat): string {
    if |s| >= d then s else Noughts(d - |s|) + s
  }

  /** Trailing zeros removed. */
  function RstripZeros(s: string): (r: string)
    ensures |r| <= |s| && r == s[..|r|]
    ensures forall k :: |r| <= k < |s| ==> s[k] == '0'
    ensures r != [] ==> r[|r| - 1] != '0'
  {
    if s == [] || s[|s| - 1] != '0' then s else RstripZeros(s[..|s| - 1])
  }

  lemma IntOfStr(n: nat)
    ensures IntOf(Str(n)) == n
  {
    if n == 0 {
      assert Nums("0") == [0];
      ValueSnoc(10, [], 0);
      assert [0] == [] + [0];
    } else {
      NumsText(Digits(10, n));
      ValueOfDigits(10, n);
    }
  }

  lemma NumsConcat(a: string, b: string)
    requires AllDigits(a) && AllDigits(b)
    ensures AllDigits(a + b) && Nums(a + b) == Nums(a) + Nums(b)
  {
  }

  lemma IntOfConcat(a: string, b: string)
    requires AllDigits(a) && AllDigits(b)
    ensures AllDigits(a + b) && IntOf(a + b) == IntOf(a) * Pow(10, |b|) + IntOf(b)
  {
    NumsConcat(a, b);
    ValueConcat(10, Nums(a), Nums(b));
  }

  lemma IntOfNoughts(k: nat)
    ensures IntOf(Noughts(k)) == 0
  {
    assert Nums(Noughts(k)) == Zeros(k);
    ValueZeros(10, k);
  }

  lemma IntOfPadded(k: nat, s: string)
    requires AllDigits(s)
    ensures AllDigits(Noughts(k) + s) && IntOf(Noughts(k) + s) == IntOf(s)
  {
    NumsConcat(Noughts(k), s);
    assert Nums(Noughts(k)) == Zeros(k);
    ValueZeroPrefix(10, k, Nums(s));
  }

  // ---------------------------------------------------------------- the parser

  predicate IsSpace(ch: char) {
    ch == ' ' || '\t' <= ch <= '\r' || '\U{1c}' <= ch <= '\U{1f}'
  }

  function Lstrip(s: string): string {
    if s != [] && IsSpace(s[0]) then Lstrip(s[1..]) else s
  }

  function Rstrip(s: string): string {
    if s != [] && IsSpace(s[|s| - 1]) then Rstrip(s[..|s| - 1]) else s
  }

  function Strip(s: string): string {
    Rstrip(Lstrip(s))
  }

  /** Position of the first dot, or the length if there is none. */
  function Dot(s: string): (k: nat)
    ensures k <= |s|
    ensures forall i :: 0 <= i < k ==> s[i] != '.'
    ensures k < |s| ==> s[k] == '.'
  {
    if s == [] || s[0] == '.' then 0 else 1 + Dot(s[1..])
  }

  /** One or more digits, then optionally a dot and one or more digits. */
  predicate WellFormed(s: string) {
    var k := Dot(s);
    && k > 0 && AllDigits(s[..k])
    && (k < |s| ==> k + 1 < |s| && AllDigits(s[k + 1..]))
  }

  function Whole(s: string): string {
    s[..Dot(s)]
  }

  function Frac(s: string): string {
    if Dot(s) < |s| then s[Dot(s) + 1..] else ""
  }

  datatype Units = Units(n: int) | NotAString | Malformed | TooPrecise

  /** `None` stands for anything that is not a string. */
  function ToUnits(amount: Option<string>, decimals: nat): Units {
    if amount.None? then NotAString
    else
      var s := Strip(amount.value);
      if !WellFormed(s) then Malformed
      else if |Frac(s)| > decimals then TooPrecise
      else
        LjustDigits(Frac(s), decimals);
        Units(IntOf(Whole(s)) * Pow(10, decimals) + IntOf(Ljust(Frac(s), decimals)))
  }

  lemma LjustDigits(s: string, d: nat)
    requires AllDigits(s)
    ensures AllDigits(Ljust(s, d))
  {
  }

  // ---------------------------------------------------------------- the printer

  function Printed(whole: nat, frac: nat, decimals: nat): string {
    if frac == 0 then Str(whole) else Str(whole) + "." + RstripZeros(Rjust(Str(frac), decimals))
  }

  /** `None` is the error for negative units. */
  function ToHuman(units: int, decimals: nat): Option<string> {
    if units < 0 then None
    else
      PowMonotone(10, 0, decimals);
      QuotientNat(units, Pow(10, decimals));
      Some(Printed(units / Pow(10, decimals), units % Pow(10, decimals), decimals))
  }

  // ---------------------------------------------------------------- what a spelling denotes

  /** All digits of the spelling as one integer: the decimal is this over ten to the number of fractional digits. */
  function Numerator(s: string): nat
    requires WellFormed(s)
  {
    NumsConcat(Whole(s), Frac(s));
    IntOf(Whole(s) + Frac(s))
  }

  /** Two spellings denote the same decimal number. */
  predicate SameDecimal(s: string, t: string)
    requires WellFormed(s) && WellFormed(t)
  {
    Numerator(s) * Pow(10, |Frac(t)|) == Numerator(t) * Pow(10, |Frac(s)|)
  }

  lemma IntOfLjust(s: string, d: nat)
    requires AllDigits(s) && |s| <= d
    ensures AllDigits(Ljust(s, d)) && IntOf(Ljust(s, d)) == IntOf(s) * Pow(10, d - |s|)
  {
    if |s| < d {
      IntOfConcat(s, Noughts(d - |s|));
      IntOfNoughts(d - |s|);
    }
  }

  /** Exactness: the units are the denoted decimal scaled by ten to the `decimals`, to the unit. */
  lemma UnitsExact(amount: string, decimals: nat)
    requires ToUnits(Some(amount), decimals).Units?
    ensures WellFormed(Strip(amount)) && |Frac(Strip(amount))| <= decimals
    ensures ToUnits(Some(amount), decimals).n ==
            Numerator(Strip(amount)) * Pow(10, decimals - |Frac(Strip(amount))|)
  {
    var s := Strip(amount);
    var w, f := Whole(s), Frac(s);
    var e := decimals - |f|;
    IntOfLjust(f, decimals);
    IntOfConcat(w, f);
    PowAdd(10, |f|, e);
    Distribute(IntOf(w), IntOf(f), Pow(10, |f|), Pow(10, e), Pow(10, decimals), IntOf(Ljust(f, decimals)), Numerator(s));
  }

  lemma Distribute(a: int, b: int, p: int, q: int, d: int, l: int, n: int)
    requires d == p * q && l == b * q && n == a * p + b
    ensures a * d + l == n * q
  {
    assert a * (p * q) == a * p * q;
    assert (a * p + b) * q == a * p * q + b * q;
  }

  lemma CancelPower(x: int, y: int, p: nat)
    requires p > 0 && x * p == y * p
    ensures x == y
  {
    assert (x - y) * p == 0;
  }

  lemma Regroup(m: int, q: int, p: int, u: int, d: int)
    requires u == m * q && d == q * p
    ensures u * p == m * d
  {
  }

  /** Scaling: `n` times ten to the fractional digits is the numerator times ten to the `decimals`. */
  lemma UnitsScaled(amount: string, decimals: nat)
    requires ToUnits(Some(amount), decimals).Units?
    ensures WellFormed(Strip(amount))
    ensures ToUnits(Some(amount), decimals).n * Pow(10, |Frac(Strip(amount))|) ==
            Numerator(Strip(amount)) * Pow(10, decimals)
  {
    UnitsExact(amount, decimals);
    var f := |Frac(Strip(amount))|;
    PowAdd(10, decimals - f, f);
    var n := ToUnits(Some(amount), decimals).n;
    Regroup(Numerator(Strip(amount)), Pow(10, decimals - f), Pow(10, f), n, Pow(10, decimals));
  }

  /** Two accepted spellings give the same units exactly when they denote the same decimal. */
  lemma SameUnits(a: string, b: string, decimals: nat)
    requires ToUnits(Some(a), decimals).Units? && ToUnits(Some(b), decimals).Units?
    ensures WellFormed(Strip(a)) && WellFormed(Strip(b))
    ensures ToUnits(Some(a), decimals) == ToUnits(Some(b), decimals) <==> SameDecimal(Strip(a), Strip(b))
  {
    UnitsScaled(a, decimals);
    UnitsScaled(b, decimals);
    var s, t := Strip(a), Strip(b);
    var u, v := ToUnits(Some(a), decimals).n, ToUnits(Some(b), decimals).n;
    PowMonotone(10, 0, |Frac(s)|);
    PowMonotone(10, 0, |Frac(t)|);
    PowMonotone(10, 0, decimals);
    CrossMultiply(u, v, Numerator(s), Numerator(t), Pow(10, |Frac(s)|), Pow(10, |Frac(t)|), Pow(10, decimals));
  }

  lemma CrossMultiply(u: int, v: int, m: int, n: int, p: nat, q: nat, d: nat)
    requires u * p == m * d && v * q == n * d
    requires p > 0 && q > 0 && d > 0
    ensures u == v <==> m * q == n * p
  {
    assert (m * q) * d == (m * d) * q == (u * p) * q == u * (p * q);
    assert (n * p) * d == (n * d) * p == (v * q) * p == v * (p * q);
    if u == v {
      CancelPower(m * q, n * p, d);
    }
    if m * q == n * p {
      assert p * q > 0;
      CancelPower(u, v, p * q);
    }
  }

  // ---------------------------------------------------------------- printing and parsing undo each other

  lemma {:induction false} StripKeeps(s: string)
    requires s != [] && !IsSpace(s[0]) && !IsSpace(s[|s| - 1])
    ensures Strip(s) == s
  {
  }

  lemma {:induction false} DotUnique(s: string, k: nat)
    requires k <= |s| && (forall i :: 0 <= i < k ==> s[i] != '.') && (k < |s| ==> s[k] == '.')
    ensures Dot(s) == k
    decreases |s|
  {
    if k > 0 {
      DotUnique(s[1..], k - 1);
    }
  }

  /** Parsing what was put together from a whole part and a fractional part. */
  lemma ParseJoined(w: string, f: string, decimals: nat)
    requires AllDigits(w) && w != [] && AllDigits(f) && f != [] && |f| <= decimals
    ensures ToUnits(Some(w + "." + f), decimals) ==
            (LjustDigits(f, decimals); Units(IntOf(w) * Pow(10, decimals) + IntOf(Ljust(f, decimals))))
  {
    var s := w + "." + f;
    LjustDigits(f, decimals);
    DotUnique(s, |w|);
    assert s[..|w|] == w && s[|w| + 1..] == f;
    assert s[0] == w[0] && s[|s| - 1] == f[|f| - 1];
    StripKeeps(s);
  }

  lemma ParseWhole(w: string, decimals: nat)
    requires AllDigits(w) && w != []
    ensures ToUnits(Some(w), decimals) == Units(IntOf(w) * Pow(10, decimals))
  {
    DotUnique(w, |w|);
    assert w[..|w|] == w;
    StripKeeps(w);
    assert Ljust("", decimals) == Noughts(decimals);
    IntOfNoughts(decimals);
  }

  lemma StripThenPad(s: string)
    ensures Ljust(RstripZeros(s), |s|) == s
  {
    var r := RstripZeros(s);
    assert s == r + s[|r|..];
    assert s[|r|..] == Noughts(|s| - |r|);
  }

  lemma StrLength(n: nat, d: nat)
    requires 0 < n < Pow(10, d)
    ensures |Str(n)| <= d
  {
    DigitsLength(10, n, d);
  }

  lemma RjustInt(n: nat, d: nat)
    requires 0 < n < Pow(10, d)
    ensures var r := Rjust(Str(n), d); |r| == d && AllDigits(r) && IntOf(r) == n
  {
    StrLength(n, d);
    IntOfPadded(d - |Str(n)|, Str(n));
    IntOfStr(n);
    assert Rjust(Str(n), d) == Noughts(d - |Str(n)|) + Str(n);
  }

  lemma NotAllNoughts(s: string)
    requires AllDigits(s) && IntOf(s) > 0
    ensures RstripZeros(s) != []
  {
    if forall k :: 0 <= k < |s| ==> s[k] == '0' {
      assert s == Noughts(|s|);
      IntOfNoughts(|s|);
    }
  }

  /** The fractional digits as printed: padded on the left, stripped on the right, they still mean `frac`. */
  lemma PrintedFraction(frac: nat, d: nat)
    requires 0 < frac < Pow(10, d)
    ensures var f := RstripZeros(Rjust(Str(frac), d));
      AllDigits(f) && f != [] && |f| <= d && AllDigits(Ljust(f, d)) && IntOf(Ljust(f, d)) == frac
  {
    RjustInt(frac, d);
    StripThenPad(Rjust(Str(frac), d));
    NotAllNoughts(Rjust(Str(frac), d));
  }

  lemma ParsePrinted(whole: nat, frac: nat, decimals: nat)
    requires frac < Pow(10, decimals)
    ensures ToUnits(Some(Printed(whole, frac, decimals)), decimals) == Units(whole * Pow(10, decimals) + frac)
  {
    IntOfStr(whole);
    if frac == 0 {
      ParseWhole(Str(whole), decimals);
    } else {
      PrintedFraction(frac, decimals);
      ParseJoined(Str(whole), RstripZeros(Rjust(Str(frac), decimals)), decimals);
    }
  }

  /** Printing and parsing undo each other, for every amount and every number of decimals. */
  lemma RoundTrip(units: nat, decimals: nat)
    ensures ToHuman(units, decimals).Some?
    ensures ToUnits(ToHuman(units, decimals), decimals) == Units(units)
  {
    PowMonotone(10, 0, decimals);
    QuotientNat(units, Pow(10, decimals));
    ParsePrinted(units / Pow(10, decimals), units % Pow(10, decimals), decimals);
    DivMod(units, Pow(10, decimals));
  }

  lemma DivMod(n: nat, p: nat)
    requires p > 0
    ensures (n / p) * p + n % p == n
  {
  }

  lemma QuotientNat(n: nat, p: nat)
    requires p > 0
    ensures n / p >= 0
  {
  }

  lemma MulNat(a: nat, b: nat)
    ensures a * b >= 0
  {
  }

  lemma UnitsNonNegative(amount: string, decimals: nat)
    requires ToUnits(Some(amount), decimals).Units?
    ensures ToUnits(Some(amount), decimals).n >= 0
  {
    UnitsExact(amount, decimals);
    MulNat(Numerator(Strip(amount)), Pow(10, decimals - |Frac(Strip(amount))|));
  }

  lemma PrintInjective(u: nat, v: nat, decimals: nat)
    ensures ToHuman(u, decimals) == ToHuman(v, decimals) <==> u == v
  {
    RoundTrip(u, decimals);
    RoundTrip(v, decimals);
  }

  /** The printed form is canonical: two accepted spellings print alike exactly when they denote the same decimal. */
  lemma PrintIsCanonical(a: string, b: string, decimals: nat)
    requires ToUnits(Some(a), decimals).Units? && ToUnits(Some(b), decimals).Units?
    ensures WellFormed(Strip(a)) && WellFormed(Strip(b))
    ensures ToHuman(ToUnits(Some(a), decimals).n, decimals) == ToHuman(ToUnits(Some(b), decimals).n, decimals)
            <==> SameDecimal(Strip(a), Strip(b))
  {
    SameUnits(a, b, decimals);
    UnitsNonNegative(a, decimals);
    UnitsNonNegative(b, decimals);
    PrintInjective(ToUnits(Some(a), decimals).n, ToUnits(Some(b), decimals).n, decimals);
  }
}
