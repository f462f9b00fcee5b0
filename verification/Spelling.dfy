/**
Which strings are amounts, what they are worth, and how an amount is printed, said over
the characters alone.
*/
module Spelling {

  import opened Common
  import opened Numerals
  import opened Money

  // ---------------------------------------------------------------- white space

  predicate Blank(ch: char) {
    ch in {' ', '\t', '\n', '\U{b}', '\U{c}', '\r', '\U{1c}', '\U{1d}', '\U{1e}', '\U{1f}'}
  }

  lemma BlankIsSpace(ch: char)
    ensures Blank(ch) <==> IsSpace(ch)
  {
    if IsSpace(ch) {
      assert ch as int == 32 || 9 <= ch as int <= 13 || 28 <= ch as int <= 31;
    }
  }

  lemma {:induction false} LstripExactly(s: string) returns (i: nat)
    ensures i <= |s| && Lstrip(s) == s[i..] && (forall k :: 0 <= k < i ==> Blank(s[k])) && (i < |s| ==> !Blank(s[i]))
    decreases |s|
  {
    i := 0;
    if s != [] {
      BlankIsSpace(s[0]);
      if IsSpace(s[0]) {
        var j := LstripExactly(s[1..]);
        i := j + 1;
        assert s[1..][j..] == s[i..];
        forall k | 0 <= k < i ensures Blank(s[k]) {
          assert k > 0 ==> s[k] == s[1..][k - 1];
        }
      }
    }
  }

  lemma {:induction false} RstripExactly(s: string) returns (j: nat)
    ensures j <= |s| && Rstrip(s) == s[..j] && (forall k :: j <= k < |s| ==> Blank(s[k])) && (j > 0 ==> !Blank(s[j - 1]))
    decreases |s|
  {
    j := |s|;
    if s != [] {
      var last := |s| - 1;
      BlankIsSpace(s[last]);
      if IsSpace(s[last]) {
        j := RstripExactly(s[..last]);
        assert s[..last][..j] == s[..j];
        forall k | j <= k < |s| ensures Blank(s[k]) {
          assert k < last ==> s[k] == s[..last][k];
        }
      }
    }
  }

  /** Stripping cuts out the part between the first and the last character that is not blank. */
  lemma StripExactly(s: string) returns (i: nat, j: nat)
    ensures i <= j <= |s| && Strip(s) == s[i..j]
    ensures forall k :: 0 <= k < i || j <= k < |s| ==> Blank(s[k])
    ensures i < j ==> !Blank(s[i]) && !Blank(s[j - 1])
  {
    i := LstripExactly(s);
    var rest := s[i..];
    var m := RstripExactly(rest);
    j := i + m;
    assert rest[..m] == s[i..j];
    forall k | j <= k < |s| ensures Blank(s[k]) {
      assert s[k] == rest[k - i];
    }
    assert m > 0 ==> s[j - 1] == rest[m - 1];
  }

  // ---------------------------------------------------------------- what is accepted

  predicate Figures(s: string) {
    s != "" && forall k :: 0 <= k < |s| ==> '0' <= s[k] <= '9'
  }

  /** `s` is the whole number `w`, or `w`, a dot and the fraction `f`. */
  predicate Spelled(s: string, w: string, f: string) {
    Figures(w) && if f == "" then s == w else Figures(f) && s == w + "." + f
  }

  lemma SpelledParts(s: string, w: string, f: string)
    requires Spelled(s, w, f)
    ensures WellFormed(s) && Whole(s) == w && Frac(s) == f
  {
    DotUnique(s, |w|);
    assert s[..|w|] == w;
    if f != "" {
      assert s[|w| + 1..] == f;
    }
  }

  lemma WellFormedParts(s: string)
    requires WellFormed(s)
    ensures Spelled(s, Whole(s), Frac(s))
  {
    var k := Dot(s);
    if k < |s| {
      assert s == s[..k] + [s[k]] + s[k + 1..];
    } else {
      assert s[..k] == s;
    }
  }

  /**
  An amount is accepted if and only if it is a string that, stripped, is one or more
  figures, or one or more figures, a dot and one or more figures but no more than the token
  has decimals. Each refusal has its own cause.
  */
  lemma AcceptedExactly(amount: Option<string>, decimals: nat)
    ensures ToUnits(amount, decimals).Units? <==>
            amount.Some? && exists w, f :: Spelled(Strip(amount.value), w, f) && |f| <= decimals
    ensures ToUnits(amount, decimals).NotAString? <==> amount.None?
    ensures ToUnits(amount, decimals).TooPrecise? <==>
            amount.Some? && exists w, f :: Spelled(Strip(amount.value), w, f) && |f| > decimals
  {
    if amount.Some? {
      var s := Strip(amount.value);
      if WellFormed(s) {
        WellFormedParts(s);
      }
      forall w, f | Spelled(s, w, f) ensures WellFormed(s) && Frac(s) == f {
        SpelledParts(s, w, f);
      }
    }
  }

  /** The number a string of figures denotes. */
  function Figure(s: string): int {
    if s == "" then 0 else Figure(s[..|s| - 1]) * 10 + (s[|s| - 1] as int - '0' as int)
  }

  lemma {:induction false} FigureIsInt(s: string)
    requires AllDigits(s)
    ensures Figure(s) == IntOf(s)
    decreases |s|
  {
    if s != "" {
      var front, last := s[..|s| - 1], s[|s| - 1];
      FigureIsInt(front);
      ValueSnoc(10, Nums(front), last as int - '0' as int);
      assert Nums(s) == Nums(front) + [last as int - '0' as int];
    }
  }

  /** What it is worth: the whole part and the fraction, each scaled to base units, nothing rounded. */
  lemma WorthExactly(amount: string, w: string, f: string, decimals: nat)
    requires Spelled(Strip(amount), w, f) && |f| <= decimals
    ensures ToUnits(Some(amount), decimals) ==
            Units(Figure(w) * Pow(10, decimals) + Figure(f) * Pow(10, decimals - |f|))
  {
    SpelledParts(Strip(amount), w, f);
    FigureIsInt(w);
    FigureIsInt(f);
    IntOfLjust(f, decimals);
  }

  // ---------------------------------------------------------------- what is printed

  /** No superfluous zero in front of the whole part or behind the fraction. */
  predicate Shortest(w: string, f: string) {
    (|w| > 1 ==> w[0] != '0') && (f != "" ==> f[|f| - 1] != '0')
  }

  lemma StrShortest(n: nat)
    ensures Figures(Str(n)) && (|Str(n)| > 1 ==> Str(n)[0] != '0')
  {
  }

  /** An amount is printed without superfluous zeros, with a dot only if there is a fraction. */
  lemma PrintedShape(units: nat, decimals: nat) returns (w: string, f: string)
    ensures ToHuman(units, decimals).Some? && Spelled(ToHuman(units, decimals).value, w, f)
    ensures Shortest(w, f) && |f| <= decimals
  {
    PowMonotone(10, 0, decimals);
    QuotientNat(units, Pow(10, decimals));
    w, f := Str(units / Pow(10, decimals)), "";
    StrShortest(units / Pow(10, decimals));
    var frac := units % Pow(10, decimals);
    if frac != 0 {
      PrintedFraction(frac, decimals);
      f := RstripZeros(Rjust(Str(frac), decimals));
    }
  }

  lemma {:induction false} SameLengthSameValue(a: string, b: string)
    requires AllDigits(a) && AllDigits(b) && |a| == |b| && IntOf(a) == IntOf(b)
    ensures a == b
    decreases |a|
  {
    if a != "" {
      var n := |a| - 1;
      FigureIsInt(a);
      FigureIsInt(b);
      FigureIsInt(a[..n]);
      FigureIsInt(b[..n]);
      DivModUnique(10, IntOf(a[..n]), a[n] as int - '0' as int);
      DivModUnique(10, IntOf(b[..n]), b[n] as int - '0' as int);
      SameLengthSameValue(a[..n], b[..n]);
      assert a == a[..n] + [a[n]] && b == b[..n] + [b[n]];
    }
  }

  /** Whole parts without leading zeros are equal if they denote the same number. */
  lemma SameWhole(v: string, w: string)
    requires Figures(v) && Figures(w) && Shortest(v, "") && Shortest(w, "") && IntOf(v) == IntOf(w)
    ensures v == w
  {
    WholeIsStr(v);
    WholeIsStr(w);
  }

  lemma WholeIsStr(w: string)
    requires Figures(w) && Shortest(w, "")
    ensures w == Str(IntOf(w))
  {
    var ds := Nums(w);
    if w[0] == '0' {
      assert w == "0" && ds == [0];
      assert IntOf(w) == 0;
    } else {
      DigitsOfValue(10, ds);
      PositiveValue(10, ds);
      assert Text(ds) == w;
    }
  }

  lemma SameFraction(e: string, f: string, decimals: nat)
    requires AllDigits(e) && AllDigits(f) && Shortest("", e) && Shortest("", f) && |e| <= decimals && |f| <= decimals
    requires Ljust(e, decimals) == Ljust(f, decimals)
    ensures e == f
  {
    var padded := Ljust(e, decimals);
    assert padded[..|e|] == e && padded[..|f|] == f;
    assert |e| == |f|;
  }

  lemma FractionSmall(f: string, decimals: nat)
    requires AllDigits(f) && |f| <= decimals
    ensures AllDigits(Ljust(f, decimals)) && |Ljust(f, decimals)| == decimals
    ensures 0 <= IntOf(Ljust(f, decimals)) < Pow(10, decimals)
  {
    IntOfLjust(f, decimals);
    Below(Ljust(f, decimals));
  }

  lemma {:induction false} Below(s: string)
    requires AllDigits(s)
    ensures 0 <= IntOf(s) < Pow(10, |s|)
    decreases |s|
  {
    FigureIsInt(s);
    if s != "" {
      Below(s[..|s| - 1]);
      FigureIsInt(s[..|s| - 1]);
      TenTimes(IntOf(s[..|s| - 1]), Pow(10, |s| - 1), s[|s| - 1] as int - '0' as int);
    }
  }

  lemma TenTimes(v: int, p: int, d: int)
    requires 0 <= v < p && 0 <= d < 10
    ensures 0 <= v * 10 + d < 10 * p
  {
  }

  /** A spelling without superfluous zeros is determined by what it is worth. */
  lemma OneShortest(s: string, v: string, e: string, t: string, w: string, f: string, decimals: nat)
    requires Spelled(s, v, e) && Shortest(v, e) && |e| <= decimals
    requires Spelled(t, w, f) && Shortest(w, f) && |f| <= decimals
    requires IntOf(v) * Pow(10, decimals) + PaddedFraction(e, decimals) ==
             IntOf(w) * Pow(10, decimals) + PaddedFraction(f, decimals)
    ensures s == t
  {
    FractionSmall(e, decimals);
    FractionSmall(f, decimals);
    DivModUnique(Pow(10, decimals), IntOf(v), PaddedFraction(e, decimals));
    DivModUnique(Pow(10, decimals), IntOf(w), PaddedFraction(f, decimals));
    SameWhole(v, w);
    SameLengthSameValue(Ljust(e, decimals), Ljust(f, decimals));
    SameFraction(e, f, decimals);
  }

  function PaddedFraction(f: string, decimals: nat): nat
    requires AllDigits(f)
  {
    LjustDigits(f, decimals);
    IntOf(Ljust(f, decimals))
  }

  lemma StripOfSpelled(s: string, w: string, f: string)
    requires Spelled(s, w, f)
    ensures Strip(s) == s
  {
    StripKeeps(s);
  }

  /**
  Printing is the inverse of parsing on spellings without superfluous zeros: such a spelling
  is worth `units` if and only if it is what `units` is printed as.
  */
  lemma PrintExactly(s: string, w: string, f: string, units: nat, decimals: nat)
    requires Spelled(s, w, f) && Shortest(w, f) && |f| <= decimals
    ensures ToUnits(Some(s), decimals) == Units(units) <==> ToHuman(units, decimals) == Some(s)
  {
    RoundTrip(units, decimals);
    var v, e := PrintedShape(units, decimals);
    var h := ToHuman(units, decimals).value;
    StripOfSpelled(s, w, f);
    StripOfSpelled(h, v, e);
    SpelledParts(s, w, f);
    SpelledParts(h, v, e);
    if ToUnits(Some(s), decimals) == Units(units) {
      OneShortest(s, w, f, h, v, e, decimals);
    }
  }

  /** Negative units have no spelling. */
  lemma NoNegative(units: int, decimals: nat)
    ensures ToHuman(units, decimals) == None <==> units < 0
  {
  }
}
