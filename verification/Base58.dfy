/** Base58 as the address code uses it: both directions are the same change of base over one alphabet. */
module Base58 {

  import opened Common
  import opened Numerals

  type Byte = x: int | 0 <= x < 256

  // ---------------------------------------------------------------- the alphabet

  /** "123456789ABCDEFGHJKLMNPQRSTUVWXYZabcdefghijkmnopqrstuvwxyz": no zero, no O, no I, no l. */
  function Letter(i: nat): char
    requires i < 58
  {
    if i < 9 then ('1' as int + i) as char
    else if i < 17 then ('A' as int + i - 9) as char
    else if i < 22 then ('J' as int + i - 17) as char
    else if i < 33 then ('P' as int + i - 22) as char
    else if i < 44 then ('a' as int + i - 33) as char
    else ('m' as int + i - 44) as char
  }

  function IndexFrom(ch: char, i: nat): (r: Option<nat>)
    requires i <= 58
    ensures r.Some? ==> i <= r.value < 58 && Letter(r.value) == ch
    ensures r.None? ==> forall k :: i <= k < 58 ==> Letter(k) != ch
    decreases 58 - i
  {
    if i == 58 then None else if Letter(i) == ch then Some(i) else IndexFrom(ch, i + 1)
  }

  /** The digit a character stands for, if it is in the alphabet. */
  function Index(ch: char): (r: Option<nat>)
    ensures r.Some? ==> r.value < 58 && Letter(r.value) == ch
    ensures r.None? ==> forall k :: 0 <= k < 58 ==> Letter(k) != ch
  {
    IndexFrom(ch, 0)
  }

  lemma IndexOfLetter(i: nat)
    requires i < 58
    ensures Index(Letter(i)) == Some(i)
  {
    var r := Index(Letter(i));
    assert r.Some? ==> Letter(r.value) == Letter(i);
  }

  predicate OverAlphabet(s: string) {
    forall k :: 0 <= k < |s| ==> Index(s[k]).Some?
  }

  function Indices(s: string): (ds: seq<int>)
    requires OverAlphabet(s)
    ensures |ds| == |s| && DigitsBelow(58, ds)
    ensures forall k :: 0 <= k < |s| ==> Letter(ds[k]) == s[k]
  {
    seq(|s|, k requires 0 <= k < |s| => Index(s[k]).value)
  }

  function Letters(ds: seq<int>): (s: string)
    requires DigitsBelow(58, ds)
    ensures |s| == |ds|
    ensures forall k :: 0 <= k < |ds| ==> s[k] == Letter(ds[k])
  {
    seq(|ds|, k requires 0 <= k < |ds| => Letter(ds[k]))
  }

  lemma LettersIndices(ds: seq<int>)
    requires DigitsBelow(58, ds)
    ensures OverAlphabet(Letters(ds)) && Indices(Letters(ds)) == ds
  {
    forall k | 0 <= k < |ds| ensures Index(Letters(ds)[k]) == Some(ds[k]) {
      IndexOfLetter(ds[k]);
    }
  }

  lemma IndicesLetters(s: string)
    requires OverAlphabet(s)
    ensures Letters(Indices(s)) == s
  {
  }

  // ---------------------------------------------------------------- decode and encode

  function Decode(s: string): Option<seq<Byte>> {
    if OverAlphabet(s) then Some(Convert(58, 256, Indices(s))) else None
  }

  function Encode(raw: seq<Byte>): string {
    Letters(Convert(256, 58, raw))
  }

  /** Decoding an encoding gives the bytes back, for every byte sequence. */
  lemma DecodeEncode(raw: seq<Byte>)
    ensures Decode(Encode(raw)) == Some(raw)
  {
    LettersIndices(Convert(256, 58, raw));
    ConvertBack(256, 58, raw);
  }

  /** Encoding a decoding gives the string back, for every string that decodes at all. */
  lemma EncodeDecode(s: string)
    requires Decode(s).Some?
    ensures Encode(Decode(s).value) == s
  {
    ConvertBack(58, 256, Indices(s));
    IndicesLetters(s);
  }

  /** No two strings decode to the same bytes. */
  lemma DecodeInjective(s: string, t: string)
    requires Decode(s).Some? && Decode(s) == Decode(t)
    ensures s == t
  {
    EncodeDecode(s);
    EncodeDecode(t);
  }

  // ---------------------------------------------------------------- what an encoding is

  /** The alphabet: the digits but zero, the capitals but I and O, the small letters but l. */
  predicate InAlphabet(ch: char) {
    || '1' <= ch <= '9'
    || ('A' <= ch <= 'Z' && ch != 'I' && ch != 'O')
    || ('a' <= ch <= 'z' && ch != 'l')
  }

  /** It has these characters and no others, in the order of their codes. */
  lemma AlphabetExactly(i: nat, j: nat, ch: char)
    requires i < 58 && j < 58
    ensures i < j ==> Letter(i) < Letter(j)
    ensures InAlphabet(Letter(i))
    ensures InAlphabet(ch) <==> Index(ch).Some?
  {
    if InAlphabet(ch) {
      InverseLetter(ch);
    }
  }

  lemma InverseLetter(ch: char)
    requires InAlphabet(ch)
    ensures Index(ch).Some?
  {
    var n := ch as int;
    var k := if n <= 57 then n - 49
             else if n <= 72 then n - 65 + 9
             else if n <= 78 then n - 74 + 17
             else if n <= 90 then n - 80 + 22
             else if n <= 107 then n - 97 + 33
             else n - 109 + 44;
    assert 0 <= k < 58 && Letter(k) == ch;
  }

  /**
  An encoding writes the same number in base 58, highest digit first, with one '1' in front
  for every zero byte in front, and no other superfluous '1'.
  */
  lemma EncodeExactly(raw: seq<Byte>, z: nat)
    requires z <= |raw| && (forall k :: 0 <= k < z ==> raw[k] == 0) && (z < |raw| ==> raw[z] != 0)
    ensures OverAlphabet(Encode(raw)) && Value(58, Indices(Encode(raw))) == Value(256, raw)
    ensures z <= |Encode(raw)| && (forall k :: 0 <= k < z ==> Encode(raw)[k] == '1')
    ensures z < |Encode(raw)| ==> Encode(raw)[z] != '1'
  {
    var ds := Convert(256, 58, raw);
    LettersIndices(ds);
    LeadingZerosUnique(raw, z);
    ZeroSplit(raw);
    ValueZeroPrefix(256, z, raw[z..]);
    ValueNonNegative(256, raw);
    ValueOfDigits(58, Value(256, raw));
    ValueZeroPrefix(58, z, Digits(58, Value(256, raw)));
    assert ds == Zeros(z) + Digits(58, Value(256, raw));
  }

  // ---------------------------------------------------------------- the loops of the source

  /** The characters stripped by removing leading '1's are the leading zero digits. */
  lemma {:induction false} LeadingOnes(s: string, k: nat)
    requires OverAlphabet(s) && k <= |s|
    requires forall i :: 0 <= i < k ==> s[i] == '1'
    requires k == |s| || s[k] != '1'
    ensures LeadingZeros(Indices(s)) == k
  {
    var ds := Indices(s);
    IndexOfLetter(0);
    forall i | 0 <= i < |s| ensures ds[i] == 0 <==> s[i] == '1' {
    }
    LeadingZerosUnique(ds, k);
  }

  method B58Decode(s: string) returns (r: Option<seq<Byte>>)
    ensures r == Decode(s)
  {
    var num := 0;
    var digits: seq<int> := [];
    for k := 0 to |s|
      invariant OverAlphabet(s[..k])
      invariant digits == Indices(s[..k])
      invariant num == Value(58, digits)
    {
      var i := Index(s[k]);
      if i.None? {
        return None;
      }
      assert s[..k + 1] == s[..k] + [s[k]];
      num := num * 58 + i.value;
      digits := digits + [i.value];
      assert digits[..|digits| - 1] == Indices(s[..k]);
    }
    assert s[..|s|] == s;
    var pad := 0;
    while pad < |s| && s[pad] == '1'
      invariant pad <= |s|
      invariant forall i :: 0 <= i < pad ==> s[i] == '1'
    {
      pad := pad + 1;
    }
    LeadingOnes(s, pad);
    ValueNonNegative(58, digits);
    r := Some(Zeros(pad) + Digits(256, num));
  }

  function Reversed(s: string): (r: string)
    ensures |r| == |s|
    ensures forall k :: 0 <= k < |s| ==> r[k] == s[|s| - 1 - k]
  {
    seq(|s|, k requires 0 <= k < |s| => s[|s| - 1 - k])
  }

  function Ones(z: nat): string {
    seq(z, _ => '1')
  }

  lemma PadLetters(z: nat, tail: seq<int>)
    requires DigitsBelow(58, tail)
    ensures Ones(z) + Letters(tail) == Letters(Zeros(z) + tail)
  {
  }

  lemma PushLetter(out: string, d: nat, tail: seq<int>)
    requires d < 58 && DigitsBelow(58, tail) && Reversed(out) == Letters(tail)
    ensures Reversed(out + [Letter(d)]) == Letters([d] + tail)
  {
    assert |out| == |tail|;
    forall k | 0 < k <= |tail| ensures Reversed(out + [Letter(d)])[k] == Letters([d] + tail)[k] {
      assert Reversed(out)[k - 1] == Letters(tail)[k - 1];
    }
  }

  method B58Encode(raw: seq<Byte>) returns (s: string)
    ensures s == Encode(raw)
  {
    var num: nat := (ValueNonNegative(256, raw); Value(256, raw));
    var out: string := "";
    ghost var tail: seq<int> := [];
    while num != 0
      invariant DigitsBelow(58, tail)
      invariant Digits(58, num) + tail == Digits(58, Value(256, raw))
      invariant Reversed(out) == Letters(tail)
    {
      QuotientSmaller(num, 58);
      var rem := num % 58;
      PushLetter(out, rem, tail);
      out := out + [Letter(rem)];
      tail := [rem] + tail;
      assert Digits(58, num) == Digits(58, num / 58) + [rem];
      num := num / 58;
    }
    var pad := LeadingZeros(raw);
    s := Ones(pad) + Reversed(out);
    PadLetters(pad, tail);
  }
}
