/**
Big-endian positional notation in any base, and the change of base in which leading zero
digits are carried over one by one. Addresses and decimal amounts both rest on it.
*/
module Numerals {

  // ---------------------------------------------------------------- positional notation

  /** The number a big-endian digit sequence denotes. */
  function Value(base: nat, digits: seq<int>): int
    decreases |digits|
  {
    if digits == [] then 0 else Value(base, digits[..|digits| - 1]) * base + digits[|digits| - 1]
  }

  predicate DigitsBelow(base: nat, digits: seq<int>) {
    forall k :: 0 <= k < |digits| ==> 0 <= digits[k] < base
  }

  lemma QuotientSmaller(n: nat, base: nat)
    requires n > 0 && base > 1
    ensures 0 <= n / base < n
  {
    var q := n / base;
    assert n == q * base + n % base;
    if q >= n {
      assert q * base >= n * 2 by {
        MulMonotone(n, q, 2, base);
      }
    }
  }

  lemma MulMonotone(a: nat, b: nat, c: nat, d: nat)
    requires a <= b && c <= d
    ensures a * c <= b * d
  {
    assert a * c <= b * c;
    assert b * c <= b * d;
  }

  /** The shortest big-endian digit sequence of a number; empty for zero. */
  function Digits(base: nat, n: nat): (digits: seq<int>)
    requires base > 1
    ensures DigitsBelow(base, digits)
    ensures n > 0 <==> digits != []
    ensures digits != [] ==> digits[0] != 0
    decreases n
  {
    if n == 0 then []
    else
      QuotientSmaller(n, base);
      Digits(base, n / base) + [n % base]
  }

  lemma ValueNonNegative(base: nat, digits: seq<int>)
    requires DigitsBelow(base, digits)
    ensures Value(base, digits) >= 0
    decreases |digits|
  {
    if digits != [] {
      ValueNonNegative(base, digits[..|digits| - 1]);
    }
  }

  lemma ValueSnoc(base: nat, front: seq<int>, d: int)
    ensures Value(base, front + [d]) == Value(base, front) * base + d
  {
    assert (front + [d])[..|front|] == front;
  }

  lemma Rejoined(base: nat, n: nat, front: seq<int>)
    requires base > 0 && Value(base, front) == n / base
    ensures Value(base, front + [n % base]) == n
  {
    ValueSnoc(base, front, n % base);
    var v := Value(base, front);
    assert n == (n / base) * base + n % base;
  }

  lemma {:induction false} ValueOfDigits(base: nat, n: nat)
    requires base > 1
    ensures Value(base, Digits(base, n)) == n
    decreases n
  {
    if n > 0 {
      QuotientSmaller(n, base);
      ValueOfDigits(base, n / base);
      Rejoined(base, n, Digits(base, n / base));
    }
  }

  lemma DivModUnique(base: nat, q: nat, r: nat)
    requires r < base
    ensures (q * base + r) / base == q && (q * base + r) % base == r
  {
    var n := q * base + r;
    var q' := n / base;
    assert q' * base <= n < (q' + 1) * base;
    if q' < q {
      MulMonotone(q' + 1, q, base, base);
    } else if q < q' {
      MulMonotone(q + 1, q', base, base);
    }
  }

  lemma {:induction false} PositiveValue(base: nat, digits: seq<int>)
    requires base > 1 && DigitsBelow(base, digits) && digits != [] && digits[0] != 0
    ensures Value(base, digits) > 0
    decreases |digits|
  {
    if |digits| > 1 {
      PositiveValue(base, digits[..|digits| - 1]);
    } else {
      assert digits[..0] == [];
    }
  }

  /** Without a leading zero, a digit sequence is the shortest one of its value. */
  lemma {:induction false} DigitsOfValue(base: nat, digits: seq<int>)
    requires base > 1 && DigitsBelow(base, digits) && (digits != [] ==> digits[0] != 0)
    ensures Value(base, digits) >= 0 && Digits(base, Value(base, digits)) == digits
    decreases |digits|
  {
    ValueNonNegative(base, digits);
    if digits != [] {
      var front := digits[..|digits| - 1];
      ValueNonNegative(base, front);
      DigitsOfValue(base, front);
      PositiveValue(base, digits);
      DivModUnique(base, Value(base, front), digits[|digits| - 1]);
      assert digits == front + [digits[|digits| - 1]];
    }
  }

  // ---------------------------------------------------------------- leading zeros

  function LeadingZeros(digits: seq<int>): (z: nat)
    ensures z <= |digits|
    ensures forall k :: 0 <= k < z ==> digits[k] == 0
    ensures z < |digits| ==> digits[z] != 0
  {
    if digits == [] || digits[0] != 0 then 0 else 1 + LeadingZeros(digits[1..])
  }

  function Zeros(z: nat): (zs: seq<int>)
    ensures |zs| == z
    ensures forall k :: 0 <= k < z ==> zs[k] == 0
  {
    seq(z, _ => 0)
  }

  lemma {:induction false} ValueZeroPrefix(base: nat, z: nat, digits: seq<int>)
    ensures Value(base, Zeros(z) + digits) == Value(base, digits)
    decreases |digits| + z
  {
    var all := Zeros(z) + digits;
    if digits != [] {
      assert all[..|all| - 1] == Zeros(z) + digits[..|digits| - 1];
      ValueZeroPrefix(base, z, digits[..|digits| - 1]);
    } else if z > 0 {
      assert all[..|all| - 1] == Zeros(z - 1) + digits;
      ValueZeroPrefix(base, z - 1, digits);
    } else {
      assert all == [];
    }
  }

  lemma ZeroSplit(digits: seq<int>)
    ensures digits == Zeros(LeadingZeros(digits)) + digits[LeadingZeros(digits)..]
  {
  }

  lemma {:induction false} LeadingZerosUnique(digits: seq<int>, z: nat)
    requires z <= |digits| && (forall k :: 0 <= k < z ==> digits[k] == 0)
    requires z < |digits| ==> digits[z] != 0
    ensures LeadingZeros(digits) == z
    decreases |digits|
  {
    if z > 0 {
      LeadingZerosUnique(digits[1..], z - 1);
    }
  }

  lemma LeadingZerosOf(z: nat, rest: seq<int>)
    requires rest != [] ==> rest[0] != 0
    ensures LeadingZeros(Zeros(z) + rest) == z
  {
    LeadingZerosUnique(Zeros(z) + rest, z);
  }

  // ---------------------------------------------------------------- the conversion

  /** Rewrite a big-endian number from one base to another, one leading zero for each leading zero. */
  function Convert(from: nat, to: nat, digits: seq<int>): (out: seq<int>)
    requires to > 1 && DigitsBelow(from, digits)
    ensures DigitsBelow(to, out)
  {
    ValueNonNegative(from, digits);
    Zeros(LeadingZeros(digits)) + Digits(to, Value(from, digits))
  }

  /** Converting there and back gives the very same digits, leading zeros included. */
  lemma ConvertBack(a: nat, b: nat, digits: seq<int>)
    requires a > 1 && b > 1 && DigitsBelow(a, digits)
    ensures Convert(b, a, Convert(a, b, digits)) == digits
  {
    ValueNonNegative(a, digits);
    var z := LeadingZeros(digits);
    var v := Value(a, digits);
    var out := Convert(a, b, digits);
    LeadingZerosOf(z, Digits(b, v));
    ValueZeroPrefix(b, z, Digits(b, v));
    ValueOfDigits(b, v);
    ZeroSplit(digits);
    ValueZeroPrefix(a, z, digits[z..]);
    DigitsOfValue(a, digits[z..]);
  }

  // ---------------------------------------------------------------- powers

  function Pow(base: nat, k: nat): nat {
    if k == 0 then 1 else base * Pow(base, k - 1)
  }

  lemma {:induction false} PowMonotone(base: nat, j: nat, k: nat)
    requires base > 0 && j <= k
    ensures 0 < Pow(base, j) <= Pow(base, k)
    decreases k
  {
    if j < k {
      PowMonotone(base, j, k - 1);
      MulMonotone(1, base, Pow(base, k - 1), Pow(base, k - 1));
    } else if k > 0 {
      PowMonotone(base, k - 1, k - 1);
      MulMonotone(1, base, 1, Pow(base, k - 1));
    }
  }

  lemma PowStep(base: nat, k: nat, m: nat)
    requires k > 0
    ensures m * Pow(base, k - 1) * base == m * Pow(base, k)
  {
    assert Pow(base, k) == base * Pow(base, k - 1);
  }

  /** The leading digit places the value between two neighbouring multiples of a power. */
  lemma {:induction false} ValueBounds(base: nat, ds: seq<int>)
    requires base > 1 && DigitsBelow(base, ds) && ds != []
    ensures ds[0] * Pow(base, |ds| - 1) <= Value(base, ds) < (ds[0] + 1) * Pow(base, |ds| - 1)
    decreases |ds|
  {
    var front := ds[..|ds| - 1];
    var last := ds[|ds| - 1];
    if |ds| == 1 {
      assert front == [] && Value(base, front) == 0;
    } else {
      ValueBounds(base, front);
      var p := Pow(base, |ds| - 2);
      BoundsStep(base, ds[0], p, Value(base, front), last);
      PowStep(base, |ds| - 1, ds[0]);
      PowStep(base, |ds| - 1, ds[0] + 1);
    }
  }

  lemma BoundsStep(base: nat, lead: nat, p: nat, v: int, last: int)
    requires lead * p <= v < (lead + 1) * p && 0 <= last < base
    ensures lead * p * base <= v * base + last < (lead + 1) * p * base
  {
    assert v + 1 <= (lead + 1) * p;
    MulMonotone(lead * p, v, base, base);
    MulMonotone(v + 1, (lead + 1) * p, base, base);
  }

  lemma {:induction false} PowAdd(base: nat, j: nat, k: nat)
    ensures Pow(base, j + k) == Pow(base, j) * Pow(base, k)
    decreases j
  {
    if j > 0 {
      PowAdd(base, j - 1, k);
      var p, q := Pow(base, j - 1), Pow(base, k);
      assert base * (p * q) == (base * p) * q;
    }
  }

  /** Writing one number after the other shifts the first by the length of the second. */
  lemma {:induction false} ValueConcat(base: nat, a: seq<int>, b: seq<int>)
    ensures Value(base, a + b) == Value(base, a) * Pow(base, |b|) + Value(base, b)
    decreases |b|
  {
    if b == [] {
      assert a + b == a;
    } else {
      var front, last := b[..|b| - 1], b[|b| - 1];
      assert a + b == (a + front) + [last];
      assert b == front + [last];
      ValueConcat(base, a, front);
      ValueSnoc(base, a + front, last);
      ValueSnoc(base, front, last);
      Shifted(base, Value(base, a), Pow(base, |front|), Value(base, front), last);
    }
  }

  lemma Shifted(base: nat, v: int, p: nat, w: int, last: int)
    ensures (v * p + w) * base + last == v * (base * p) + (w * base + last)
  {
    assert v * p * base == v * (base * p);
  }

  lemma ValueZeros(base: nat, z: nat)
    ensures Value(base, Zeros(z)) == 0
  {
    assert Zeros(z) == Zeros(z) + [];
    ValueZeroPrefix(base, z, []);
  }

  /** Below a power of the base, a number has no more digits than the exponent. */
  lemma DigitsLength(base: nat, n: nat, d: nat)
    requires base > 1 && n < Pow(base, d)
    ensures |Digits(base, n)| <= d
  {
    var ds := Digits(base, n);
    if |ds| > d {
      ValueBounds(base, ds);
      ValueOfDigits(base, n);
      PowMonotone(base, d, |ds| - 1);
      MulMonotone(1, ds[0], Pow(base, |ds| - 1), Pow(base, |ds| - 1));
    }
  }
}
