/**
TRON base58check addresses: version byte 0x41, twenty bytes of payload, and the first four
bytes of a double digest. The digest itself is a parameter; nothing is assumed of it
beyond the length of its result.
*/
module Address {

  import opened Common
  import opened Numerals
  import opened Base58

  type Bytes32 = s: seq<Byte> | |s| == 32 witness seq(32, _ => 0)

  type Digest = seq<Byte> -> Bytes32

  const VERSION: Byte := 0x41

  function Checksum(h: Digest, payload: seq<Byte>): (r: seq<Byte>)
    ensures |r| == 4
  {
    h(h(payload))[..4]
  }

  predicate Checked(h: Digest, raw: seq<Byte>) {
    |raw| == 25 && raw[0] == VERSION && Checksum(h, raw[..21]) == raw[21..]
  }

  predicate IsValid(h: Digest, s: string) {
    30 <= |s| <= 40 && Decode(s).Some? && Checked(h, Decode(s).value)
  }

  function FromPayload(h: Digest, body: seq<Byte>): Option<string> {
    if |body| != 20 then None
    else
      var payload := [VERSION] + body;
      Some(Encode(payload + Checksum(h, payload)))
  }

  // ---------------------------------------------------------------- how long an address is

  const P33 := 15599970876632771988160814054146447252125923204784443097088
  const P34 := 904798310844700775313327215140493940623303545877497699631104

  lemma Powers58()
    ensures Pow(58, 33) == P33 && Pow(58, 34) == P34
  {
    assert Pow(58, 1) == 58;
    PowAdd(58, 1, 1);
    assert Pow(58, 2) == 3364;
    PowAdd(58, 2, 2);
    assert Pow(58, 4) == 11316496;
    PowAdd(58, 4, 4);
    assert Pow(58, 8) == 128063081718016;
    PowAdd(58, 8, 8);
    assert Pow(58, 16) == 16400152899115243850138976256;
    PowAdd(58, 16, 16);
    assert Pow(58, 32) == 268965015114358137726910587140455987105619365599731777536;
    PowAdd(58, 1, 32);
    PowAdd(58, 1, 33);
  }

  lemma Powers256()
    ensures Pow(256, 24) == 6277101735386680763835789423207666416102355444464034512896
  {
    assert Pow(256, 1) == 256;
    PowAdd(256, 1, 1);
    assert Pow(256, 2) == 65536;
    PowAdd(256, 2, 2);
    assert Pow(256, 4) == 4294967296;
    PowAdd(256, 4, 4);
    assert Pow(256, 8) == 18446744073709551616;
    PowAdd(256, 8, 8);
    assert Pow(256, 16) == 340282366920938463463374607431768211456;
    PowAdd(256, 8, 16);
  }

  lemma SameValue(s: string)
    requires Decode(s).Some? && Decode(s).value != [] && Decode(s).value[0] != 0
    ensures Value(58, Indices(s)) == Value(256, Decode(s).value)
    ensures s != [] && Indices(s)[0] != 0
  {
    var ds := Indices(s);
    ValueNonNegative(58, ds);
    assert Decode(s).value[0] == (Zeros(LeadingZeros(ds)) + Digits(256, Value(58, ds)))[0];
    assert LeadingZeros(ds) == 0;
    assert Decode(s).value == Digits(256, Value(58, ds));
    ValueOfDigits(256, Value(58, ds));
  }

  /** Twenty-five bytes starting with the version byte are 34 characters starting with 'T', always. */
  lemma LengthAndPrefix(s: string)
    requires Decode(s).Some? && |Decode(s).value| == 25 && Decode(s).value[0] == VERSION
    ensures |s| == 34 && s[0] == 'T'
  {
    var raw := Decode(s).value;
    var ds := Indices(s);
    SameValue(s);
    ValueBounds(256, raw);
    ValueBounds(58, ds);
    Powers256();
    LengthFromValue(ds, Value(256, raw));
    assert s[0] == Letter(ds[0]);
  }

  lemma ShortIsSmall(ds: seq<int>)
    requires DigitsBelow(58, ds) && 0 < |ds| <= 33
    ensures (ds[0] + 1) * Pow(58, |ds| - 1) <= Pow(58, 33)
  {
    PowMonotone(58, |ds| - 1, 32);
    MulMonotone(ds[0] + 1, 58, Pow(58, |ds| - 1), Pow(58, 32));
  }

  lemma LongIsLarge(ds: seq<int>)
    requires DigitsBelow(58, ds) && |ds| >= 35 && ds[0] != 0
    ensures ds[0] * Pow(58, |ds| - 1) >= Pow(58, 34)
  {
    PowMonotone(58, 34, |ds| - 1);
    MulMonotone(1, ds[0], Pow(58, 34), Pow(58, |ds| - 1));
  }

  lemma LengthFromValue(ds: seq<int>, v: int)
    requires ds != [] && DigitsBelow(58, ds) && ds[0] != 0
    requires ds[0] * Pow(58, |ds| - 1) <= v < (ds[0] + 1) * Pow(58, |ds| - 1)
    requires 26 * P33 <= v < 27 * P33
    ensures |ds| == 34 && ds[0] == 26
  {
    Powers58();
    if |ds| <= 33 {
      ShortIsSmall(ds);
    } else if |ds| >= 35 {
      LongIsLarge(ds);
    }
  }

  // ---------------------------------------------------------------- addresses

  /** Every valid address has exactly 34 characters, starts with 'T', and is the only spelling of its bytes. */
  lemma ValidShape(h: Digest, s: string, t: string)
    requires IsValid(h, s)
    ensures |s| == 34 && s[0] == 'T'
    ensures Decode(t) == Decode(s) ==> t == s
  {
    LengthAndPrefix(s);
    if Decode(t) == Decode(s) {
      DecodeInjective(t, s);
    }
  }

  /** Every twenty bytes mint an address that passes validation, and nothing else mints at all. */
  lemma MintedIsValid(h: Digest, body: seq<Byte>)
    ensures FromPayload(h, body).Some? <==> |body| == 20
    ensures |body| == 20 ==> IsValid(h, FromPayload(h, body).value)
  {
    if |body| == 20 {
      var payload := [VERSION] + body;
      var raw := payload + Checksum(h, payload);
      DecodeEncode(raw);
      assert raw[..21] == payload && raw[21..] == Checksum(h, payload);
      LengthAndPrefix(Encode(raw));
    }
  }

  /** And every valid address is minted by the payload it carries: the two are in bijection. */
  lemma ValidIsMinted(h: Digest, s: string)
    requires IsValid(h, s)
    ensures |Decode(s).value| == 25 && FromPayload(h, Decode(s).value[1..21]) == Some(s)
  {
    var raw := Decode(s).value;
    assert [VERSION] + raw[1..21] == raw[..21];
    assert raw[..21] + raw[21..] == raw;
    EncodeDecode(s);
  }

  /** The bytes of an address: the version, the payload, and four bytes of the digest of their digest. */
  function Layout(h: Digest, body: seq<Byte>): seq<Byte> {
    [0x41] + body + h(h([0x41] + body))[..4]
  }

  /** An address is valid if and only if it is the encoding of some twenty bytes laid out like this. */
  lemma ValidExactly(h: Digest, s: string)
    ensures IsValid(h, s) <==> exists body: seq<Byte> :: |body| == 20 && s == Encode(Layout(h, body))
  {
    if IsValid(h, s) {
      ValidIsMinted(h, s);
      var body := Decode(s).value[1..21];
      assert s == Encode(Layout(h, body));
    }
    forall body: seq<Byte> | |body| == 20 && s == Encode(Layout(h, body)) ensures IsValid(h, s) {
      MintedIsValid(h, body);
      assert FromPayload(h, body) == Some(Encode(Layout(h, body)));
    }
  }
}
